# geo3dfeatures feature extraction, modelled in Dafny

This project models the core of `geo3dfeatures/extract.py`: the per-point
geometric feature extraction of the geo3dfeatures LiDAR toolkit. For every
sampled point of a point cloud, that code assembles one record of descriptors:

- the barycentric coordinates of the point in the explained-variance triangle
  (`features3d`);
- the point's own z;
- the 3D properties of its neighbourhood, namely radius, z range, z standard
  deviation, density and verticality (`compute_3D_properties`);
- eight eigenvalue shape descriptors (`compute_3D_features`, built on
  `normalize_over_1`);
- the planar radius and density (`compute_2D_properties`);
- the 2D eigenvalue sum and ratio (`compute_2D_features`);
- three accumulation features (`retrieve_accumulation_features`), looked up in
  a per-cell table built once over the whole cloud
  (`build_accumulation_features`);
- the extra columns of the cloud divided by 255 (colours).

`generate_features` drives all of this.

The model has five modules:

- `Numerics` holds the scalar model shared by everything. A float is a `real`.
  numpy's nan and inf are the single value `NonFinite`. The transcendental
  results (cube root, entropy, standard deviation, square root, division by π)
  are kept as uninterpreted `Scalar` constructors over their exact arguments.
  A Python exception is an `Err` carrying the exception's kind:
  - `AssertionFailed` for a failed `assert`;
  - `EmptyArgument` for a reduction over nothing;
  - `MathDomain` for `math.log(0)`;
  - `ZeroDivision` for a Python float division by zero.
- `EigenFeatures` holds `normalize_over_1`, `features3d`, `compute_3D_features`
  and `compute_2D_features`, with the identities the descriptors obey.
- `LocalProperties` holds `compute_3D_properties` and `compute_2D_properties`.
- `Accumulation` holds the grid of `build_accumulation_features` and the
  lookup of `retrieve_accumulation_features`:
  - the bins, `pd.cut` over `np.arange` edges, shown to equal a floor formula;
  - the group-by-cell aggregation;
  - the merge back onto the points.
- `FeatureGeneration` holds the record layout and the `generate_features`
  loop. Records are produced in sample order, and the first exception stops
  the run.

Numeric division follows the source operator by operator:

- A numpy division by zero gives a non-finite value (`Divide`).
- A Python float division by zero raises (`Properties2D`).
- `math.log(0)` raises (`EigenFeatures3D`).

The degenerate neighbourhoods therefore behave as in the code. A neighbourhood
whose points all share x and y raises `ZeroDivisionError` in
`compute_2D_properties`. A zero singular value with a non-zero sum raises a math
domain error in the eigenentropy. Where the code raises, the model raises too;
these cases do not become nan.

## Model

| member | source | states |
|---|---|---|
| Numerics.Divide | geo3dfeatures/extract.py:214 | a numpy float division is non-finite exactly when the divisor is zero; for any other divisor it is an exact value whose product with the divisor gives back the dividend |
| EigenFeatures.NormalizeOver1 | geo3dfeatures/extract.py:58-72 | same length; all non-finite when the values sum to zero (0/0 on numpy floats); otherwise the new values sum to 1, lie in [0, 1] for non-negative input, and keep a descending order |
| EigenFeatures.NormalizeOver1ScaleInvariant | geo3dfeatures/extract.py:58-72 | multiplying every value by a positive constant leaves the normalised values unchanged |
| EigenFeatures.VarianceSpaceCoordinates | geo3dfeatures/extract.py:101-103 | two coordinates (a, b) whose sum is 3·e0 + 3·e1 − 2 |
| EigenFeatures.VarianceSpaceTriangle | geo3dfeatures/extract.py:84-89 | for descending non-negative eigenvalues summing to 1: b = 2(e1 − e2), the third coordinate 1 − a − b = 3·e2, and (a, b) lies in the unit triangle (a ≥ 0, b ≥ 0, a + b ≤ 1) |
| EigenFeatures.RawSingularValuesLeaveTriangle | geo3dfeatures/extract.py:319-321 | fed un-normalised singular values (2, 1, 0), as `generate_features` does, the coordinates leave the triangle (a + b > 1) |
| EigenFeatures.EigenFeatures3D | geo3dfeatures/extract.py:167-177 | raises a math domain error exactly when the eigenvalues have a positive sum and a zero entry; otherwise eight values ending with the raw eigenvalue sum; all others non-finite for a zero sum; omnivariance and eigenentropy taken over the normalised values |
| EigenFeatures.NormalizedValues | geo3dfeatures/extract.py:72 | for a non-zero sum, the normalised values are exactly each value over the sum |
| EigenFeatures.ShapeDescriptors | geo3dfeatures/extract.py:168-177 | eight descriptors whose last is the given sum, with omnivariance the cube root of e0·e1·e2 and eigenentropy over e |
| EigenFeatures.ShapeFeatureIdentities | geo3dfeatures/extract.py:167-175 | for positive descending eigenvalues: linearity + planarity + scattering = 1, anisotropy = linearity + planarity, each of the four in [0, 1], curvature change in (0, 1/3], and the sum of the three eigenvalues last |
| EigenFeatures.RatiosInUnitInterval | geo3dfeatures/extract.py:169-173 | the ratio identities and the [0, 1] bounds for e0 ≥ e1 ≥ e2 > 0 summing to 1, and e2 ≤ 1/3 |
| EigenFeatures.EigenFeatures3DScaleFree | geo3dfeatures/extract.py:167-177 | scaling the eigenvalues by c > 0 keeps success or failure and the seven descriptors, and scales only the eigenvalue sum |
| EigenFeatures.ScaleFreeZeroSum | geo3dfeatures/extract.py:167-177 | for all-zero eigenvalues, scaling changes nothing but the (zero) sum |
| EigenFeatures.SameNormalizationSameDescriptors | geo3dfeatures/extract.py:167-174 | two eigenvalue lists with the same normalisation and the same zero pattern give the same seven descriptors |
| EigenFeatures.AllZeroEigenvalues | geo3dfeatures/extract.py:167-175 | non-negative eigenvalues sum to zero exactly when all are zero, and then nothing raises and the seven descriptors are nan |
| EigenFeatures.EigenFeatures3DNonZeroSum | geo3dfeatures/extract.py:167-177 | for a non-zero sum, failure exactly when an eigenvalue is zero; on success e0 ≠ 0 and the record is the shape descriptors of the normalised values |
| EigenFeatures.LargestNormalizedPositive | geo3dfeatures/extract.py:167-169 | with no zero eigenvalue and a non-zero sum, the first normalised value (the linearity divisor) is positive |
| EigenFeatures.EigenFeatures2D | geo3dfeatures/extract.py:213-215 | two values: the sum of the two eigenvalues; a ratio that is non-finite exactly when the second eigenvalue is zero and otherwise an exact value with ratio·λ1 = λ0, and is at least 1 for descending positive eigenvalues |
| LocalProperties.Properties3D | geo3dfeatures/extract.py:149-154 | raises on empty distances or z's; otherwise the radius is the largest distance, the z range is a difference of two z's that bounds every other, the std is over the z's with ddof 0, the density is non-finite exactly for a zero radius and otherwise (n + 1)/((4/3)·π·r³), and verticality is nan |
| LocalProperties.SquaredDistance | geo3dfeatures/extract.py:196 | a squared planar distance is non-negative and zero exactly for the same (x, y) |
| LocalProperties.SquaredDistances | geo3dfeatures/extract.py:195-197 | one squared distance per neighbour, in order |
| LocalProperties.LargestSquaredDistanceZero | geo3dfeatures/extract.py:196-198 | the largest squared distance is zero exactly when every neighbour has the point's (x, y) |
| LocalProperties.Properties2D | geo3dfeatures/extract.py:195-200 | raises on no neighbours, and on a zero-division when every neighbour has the point's (x, y); otherwise the radius is the root of the largest squared distance and the density is (n + 1)/(π·r²) |
| Accumulation.Points | geo3dfeatures/extract.py:244 | one point per row of a three-column matrix |
| Accumulation.GridOf | geo3dfeatures/extract.py:245-246 | the grid's bounds are the smallest and largest x and y of the cloud: each is some point's coordinate and together they enclose every point; bin size and buffer are kept as given |
| Accumulation.BinIndexBounds | geo3dfeatures/extract.py:247-250 | a coordinate at or above the first edge lies in the half-open interval [start + k·size, start + (k+1)·size) of its bin index |
| Accumulation.BinIndexUnique | geo3dfeatures/extract.py:248 | no other interval holds the coordinate |
| Accumulation.ArangeLength | geo3dfeatures/extract.py:247 | `np.arange(start, stop, step)` yields nothing when stop ≤ start, and otherwise n values whose last, start + (n − 1)·step, is below stop while start + n·step is not |
| Accumulation.InBin | geo3dfeatures/extract.py:248 | `pd.cut(..., right=False)` membership in interval k of the edges; an interval that holds x is the one given by the floor index |
| Accumulation.EnoughEdges | geo3dfeatures/extract.py:247 | with a positive buffer, the arange edges reach past every coordinate up to the maximum |
| Accumulation.PdCutIsBinIndex | geo3dfeatures/extract.py:247-250 | `pd.cut(..., right=False)` over the arange edges puts each coordinate in exactly the floor-formula bin |
| Accumulation.EveryPointInOneCell | geo3dfeatures/extract.py:245-250 | every point of the cloud falls in exactly one (xbin, ybin) cell |
| Accumulation.Cells | geo3dfeatures/extract.py:248-250 | one cell per point, in order |
| Accumulation.CellZs | geo3dfeatures/extract.py:251-252 | the z values of the points of one cell, in input order: at most one per point |
| Accumulation.CellZsFromCell | geo3dfeatures/extract.py:251-252 | every value of a group is the z of a point of that cell |
| Accumulation.CellZsMembers | geo3dfeatures/extract.py:251-252 | each point's z is in its cell's group |
| Accumulation.CellZsCount | geo3dfeatures/extract.py:251-253 | a group holds as many z's as points fall in the cell |
| Accumulation.Aggregate | geo3dfeatures/extract.py:253-256 | the count is the group size; z_range is a non-negative difference of two group members, bounding every member's distance from the minimum; std is nan exactly for a one-point group and otherwise the standard deviation of the group with ddof 1 |
| Accumulation.Table | geo3dfeatures/extract.py:257-259 | one merged row per point, in point order |
| Accumulation.AccumulationTable | geo3dfeatures/extract.py:243-259 | for a positive bin size and buffer: fails the assertion unless there are three columns, and raises on an empty cloud; otherwise one row per point |
| Accumulation.AssignCells | geo3dfeatures/extract.py:248-250 | computes the cell of every point |
| Accumulation.GroupByCell | geo3dfeatures/extract.py:251-252 | maps exactly the occupied cells to their z's |
| Accumulation.MergeStats | geo3dfeatures/extract.py:257-259 | each point is joined with its cell's statistics (left merge) |
| Accumulation.MergedTable | geo3dfeatures/extract.py:251-259 | merging the per-cell aggregates back onto the points gives the table |
| Accumulation.BuildAccumulationFeatures | geo3dfeatures/extract.py:218-259 | the step-by-step build returns exactly the accumulation table (or its error) |
| Accumulation.TableRowsDescribeCells | geo3dfeatures/extract.py:251-259 | row i carries point i, the number of points sharing its cell (at least 1), the z range (max − min) of that cell, and its z standard deviation (ddof 1; nan for a one-point cell) |
| Accumulation.OccupiedCountsSumToSize | geo3dfeatures/extract.py:251-253 | the counts of the occupied cells add up to the number of points |
| Accumulation.Occupied | geo3dfeatures/extract.py:251-252 | the occupied cells are exactly the cells some point falls in |
| Accumulation.RowFeatures | geo3dfeatures/extract.py:282-285 | a row's accumulation features are its count, z range and std, in this order |
| Accumulation.Matches | geo3dfeatures/extract.py:280 | the query selects exactly the rows with the point's x, y and z, in increasing order |
| Accumulation.RetrieveAccumulationFeatures | geo3dfeatures/extract.py:279-285 | succeeds exactly when one row matches, returning that row's count, z range and std; otherwise fails the assertion |
| Accumulation.RetrieveRow | geo3dfeatures/extract.py:280-285 | a row's own point retrieves that row's features exactly when no other row has the same coordinates |
| Accumulation.TablePoints | geo3dfeatures/extract.py:257-259 | the table's rows carry the cloud's points in order |
| Accumulation.RetrieveFromOwnTable | geo3dfeatures/extract.py:279-285 | looking up a cloud point in the cloud's own table succeeds exactly when its xyz is unique, and then returns its own row's features |
| Accumulation.DuplicatePointFails | geo3dfeatures/extract.py:281 | two rows with the same coordinates make the lookup fail |
| FeatureGeneration.FirstColumns | geo3dfeatures/extract.py:306 | `point_cloud[:, :3]`: same row count, width min(w, 3), and the points are each row's first three values |
| FeatureGeneration.NeighbourZs | geo3dfeatures/extract.py:318 | the z of each neighbour index, in order |
| FeatureGeneration.NeighbourXYs | geo3dfeatures/extract.py:318 | the (x, y) of each neighbour index, in order |
| FeatureGeneration.Extras | geo3dfeatures/extract.py:328 | every column after the third, divided by 255 |
| FeatureGeneration.Assemble | geo3dfeatures/extract.py:321-328 | the record is the concatenation of the eight parts, each at its own offset |
| FeatureGeneration.PointRecord | geo3dfeatures/extract.py:316-328 | a successful record has 23 values plus one per extra column |
| FeatureGeneration.RecordLayout | geo3dfeatures/extract.py:321-328 | a record exists exactly when the 3D properties, 3D features, 2D properties and accumulation lookup all succeed; the error is the first to raise in evaluation order; each part sits at its offset |
| FeatureGeneration.RecordEnds | geo3dfeatures/extract.py:321-328 | a record holds the point's z at index 2 and its scaled extra columns at the end |
| FeatureGeneration.RunOf | geo3dfeatures/extract.py:315-328 | what the consumer of the generator receives: never more records than results, and each record is the value of the successful result at its position |
| FeatureGeneration.SampleRecords | geo3dfeatures/extract.py:313-328 | one result per sampled index |
| FeatureGeneration.RunStopsAtFirstFailure | geo3dfeatures/extract.py:315-328 | the records yielded are the successful results before the first failure, in order; the run ends with that failure, or with none when every point succeeded |
| FeatureGeneration.SampleRecordsAt | geo3dfeatures/extract.py:313-328 | the k-th result belongs to the k-th sampled index and its neighbourhood |
| FeatureGeneration.GeneratedFeatures | geo3dfeatures/extract.py:306-328 | a cloud with fewer than three columns fails the accumulation assertion, and an empty cloud raises, before any record is produced |
| FeatureGeneration.GenerateFeatures | geo3dfeatures/extract.py:287-328 | the loop's records and failure are exactly the generated run |
| FeatureGeneration.YieldRecords | geo3dfeatures/extract.py:315-328 | the loop yields the records of the sampled points in order and stops at the first error |
| FeatureGeneration.AllPoints | geo3dfeatures/extract.py:307-308 | without a sample size, the mask is every row index in order |
| FeatureGeneration.GenerateAllPoints | geo3dfeatures/extract.py:307-328 | over all points, a run without failure has one record per point, each of length 23 + extra columns, carrying that point's z and extras |
| FeatureGeneration.RecordAccumulationFeatures | geo3dfeatures/extract.py:327 | a record built against the cloud's own table carries the accumulation features of the point's own row, and its xyz is unique in the cloud |
| FeatureGeneration.DuplicatePointStopsRun | geo3dfeatures/extract.py:281 | a sampled point whose xyz occurs in another row makes the run fail |

## Left out

- PCA (`_pca`), `standard_normalization` and the KD-tree (`build_neighborhood`) are not part of this model. A neighbourhood is an input: neighbour indices, distances and the 3D and 2D singular values, which are taken as non-negative, as a singular value decomposition returns them.
- The `nb_neighbors` == 1 shape produced by `squeeze` is not modelled. A neighbourhood is always a sequence.
- `np.random.choice` sampling is not modelled. The sample mask is an input; only the all-points mask `range(n)` is built (`AllPoints`).
- `generate_features` is lazy. The model collects the records yielded up to the first exception, together with that exception.
- EigenFeatures3D: cube root, natural logarithm and entropy are uninterpreted. Omnivariance and eigenentropy are stated over their arguments, not as numbers.
- Properties3D: the standard deviation and π are uninterpreted. The density is `OverPi` of the rest of the formula.
- Properties2D: `max(sqrt d_i)` is modelled as `sqrt(max d_i)`. These are equal because the square root is increasing, so the radius is a `SquareRoot` term and the density divides by the largest squared distance.
- Aggregate: the per-cell z standard deviation (ddof 1) is an uninterpreted term, nan for a one-point cell.
- Floating-point rounding is not modelled; arithmetic is exact on reals. nan and ±inf are one `NonFinite` value.
- AccumulationTable: requires a positive bin size and a positive buffer, as do PdCutIsBinIndex and EveryPointInOneCell. The defaults (0.25 and 0.001) meet both. With a buffer of zero or less, the source can leave the points at the largest x or y outside every bin, and their merged rows then hold nan for count, z range and std. That case is not modelled.
- BuildAccumulationFeatures: requires a positive buffer, for the same reason as AccumulationTable.
- TableRowsDescribeCells: requires a positive buffer, for the same reason as AccumulationTable.
- NormalizeOver1: models the call on a numpy array, where a zero sum gives nan. A plain Python list with a zero sum would raise instead; the only caller passes numpy arrays.
- The feature-set selection, the command-line interface, file I/O and the `featurize` package are not part of this model.
- `generate_features` passes raw singular values to `features3d`, whose documentation expects normalised eigenvalues. The model follows the code. RawSingularValuesLeaveTriangle shows that such input can leave the variance triangle; VarianceSpaceTriangle states the triangle for normalised input.

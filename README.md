# k-means clustering (Lloyd's algorithm) in Dafny

This project models the k-means engine of the ClusterNumeric repository. The engine exists twice, as
the `KMeans` estimator (`Fit`/`Predict`, WarSystem.MachineLearning/Clusters/KMeans.cs) and as the
`Clusterer` of the console demo (`Cluster`, ClusterNumeric/Clusterer.cs). Both work the same way:

- allocate a zeroed centroid row per cluster;
- assign point `i` to cluster `i mod k`, then scramble that assignment with a Fisher-Yates swap loop;
- alternate two steps until the assignment stops changing or `10 n` iterations have run:
  - recompute every centroid as the mean of its cluster;
  - move every point to its nearest centroid, where the lowest cluster id wins ties.

  A reassignment is committed only when some point moves and no cluster would be left empty.

The project has four modules:

- `KMeansSpec` (kmeans_spec.dfy) holds the pure reference definitions and the lemmas about them:
  - the round robin and its cluster sizes;
  - the scramble, which is a permutation;
  - the first-minimum scan;
  - the squared distance;
  - cluster means;
  - the guarded reassignment step `Reassign`;
  - the bounded refinement loop `Refine`, and `Train`, the whole fit.
- `KMeansSteps` (kmeans_steps.dfy) holds the imperative steps both classes execute, on the arrays they
  own. Every step except `Step` is proved equal to its reference definition. `Step` is related to the
  reference run one iteration at a time; its gap is listed under "Left out".
- `Clusters` (kmeans.dfy) holds the `KMeans` class.
- `ClusterNumeric` (clusterer.dfy) holds the `Clusterer` class.

Modelling choices:

- Data points are `seq<seq<real>>`. The source never writes to them.
- A centroid matrix is an `array<seq<real>>`. The outer array is the table the object owns and
  updates in place, and each row is a value that the steps rewrite component by component.
- Distances are squared Euclidean distances over `real`. The source takes a square root of the same
  sum. The square root is strictly increasing on non-negative numbers, so every strict `<` comparison
  in the nearest-centroid scan, and therefore every cluster id chosen, is the same. This is an
  assumption of the model, not something proved here.
- The seeded `System.Random` is replaced by a caller-supplied sequence `draws`. Entry `draws[i]` is
  the value of `Next(i, n)` in swap `i`, so it lies in `[i, n)`.
- The model requires `1 <= k <= n` and rectangular data. The source checks none of these, and it
  behaves as follows without them:
  - With `n = 0`, reading `data[0]` throws.
  - With `k = 0`, the tally `++clusterCounts[clusterId]` indexes an empty array and throws.
  - With `k > n`, round robin leaves some cluster empty. Its mean is the `double` division `0.0 / 0`,
    which gives NaN rather than an exception. Only `n` points exist, so at most `n` ids can occur in
    a proposal. Every proposal therefore empties a cluster and is rejected.
    `Fit`/`Cluster` then return after one iteration with the scrambled start and NaN rows for the empty clusters.
  - A point shorter than `data[0]` runs without error. `Distance` and the accumulation loop only
    read `tuple.Length` / `data[i].Length` components (Clusterer.cs:109, 134). A point longer than
    `data[0]` indexes past the end of a centroid row and throws.

  The model leaves these runs out: it does not describe NaN rows or ragged data.

## Model

| member | source | states |
|---|---|---|
| KMeansSpec.Count | ClusterNumeric/Clusterer.cs:73-78 | the tally of points in one cluster never exceeds the number of points |
| KMeansSpec.CountIsMultiplicity | ClusterNumeric/Clusterer.cs:73-78 | the tally of cluster `c` equals the multiplicity of `c` in the multiset of ids |
| KMeansSpec.CountPositiveIff | ClusterNumeric/Clusterer.cs:80-83 | a cluster's tally is positive exactly when its id occurs in the assignment |
| KMeansSpec.PermutationKeepsClusters | ClusterNumeric/Clusterer.cs:160-166 | any permutation of an assignment keeps ids in range and keeps every cluster non-empty |
| KMeansSpec.RoundRobin | ClusterNumeric/Clusterer.cs:152-158 | the round-robin start has one id per point |
| KMeansSpec.DivModNext | ClusterNumeric/Clusterer.cs:156-157 | arithmetic helper for `InitRandom`'s first loop: stepping `i` to `i + 1` bumps `i mod k`, or resets it to 0 and bumps `i div k` |
| KMeansSpec.RoundRobinCount | ClusterNumeric/Clusterer.cs:152-158 | round robin puts `n div k` points in cluster `c`, plus one when `c < n mod k` |
| KMeansSpec.RoundRobinValid | ClusterNumeric/Clusterer.cs:152-158 | for `1 <= k <= n` round robin uses only ids in `[0, k)` and fills every cluster |
| KMeansSpec.Swap | ClusterNumeric/Clusterer.cs:163-165 | the three-assignment exchange swaps positions `i` and `r`, leaves the rest alone and keeps the multiset |
| KMeansSpec.Shuffled | ClusterNumeric/Clusterer.cs:160-166 | every prefix of the swap loop keeps the length and the multiset of ids |
| KMeansSpec.InitialAssignment | ClusterNumeric/Clusterer.cs:150-167 | the start `InitRandom` leaves has one id per point and the same multiset of ids as round robin |
| KMeansSpec.InitialAssignmentValid | ClusterNumeric/Clusterer.cs:150-167 | the scrambled start is a permutation of round robin, with ids in range and no empty cluster |
| KMeansSpec.PartialSquaredDistance | ClusterNumeric/Clusterer.cs:106-112 | the accumulated sum of squared differences is never negative |
| KMeansSpec.PartialSquaredDistanceOfEqual | ClusterNumeric/Clusterer.cs:108-110 | components that agree contribute nothing to the sum |
| KMeansSpec.PartialSquaredDistanceSymmetric | ClusterNumeric/Clusterer.cs:108-110 | the distance does not depend on the order of point and centroid |
| KMeansSpec.SquaredDistance | ClusterNumeric/Clusterer.cs:106-112 | the distance (before the square root) over the point's components is never negative |
| KMeansSpec.SquaredDistanceToSelf | ClusterNumeric/Clusterer.cs:106-112 | a point is at distance zero from a centroid that starts with the same components |
| KMeansSpec.ArgMinUpTo | ClusterNumeric/Clusterer.cs:93-102 | after scanning `m` entries the best index is a minimum of them and every earlier entry is strictly larger |
| KMeansSpec.ArgMin | ClusterNumeric/Clusterer.cs:91-104 | the result is in bounds, no entry is smaller, and every earlier entry is strictly larger (lowest index wins ties) |
| KMeansSpec.FirstMinUnique | ClusterNumeric/Clusterer.cs:91-104 | the first-minimum property determines the index, so any scan meeting it returns `ArgMin` |
| KMeansSpec.Distances | ClusterNumeric/Clusterer.cs:58-61 | one distance per centroid |
| KMeansSpec.Nearest | ClusterNumeric/Clusterer.cs:58-62 | the chosen id is one of the centroids' ids |
| KMeansSpec.NearestIsFirstNearest | ClusterNumeric/Clusterer.cs:58-62 | no centroid is nearer than the chosen one, and every lower id is strictly farther (lowest id wins ties) |
| KMeansSpec.Proposed | ClusterNumeric/Clusterer.cs:56-69 | the proposal has one id per point, each in `[0, k)` |
| KMeansSpec.ClusterSum | ClusterNumeric/Clusterer.cs:131-138 | the accumulated component sum of a cluster that no point belongs to is zero |
| KMeansSpec.Centroid | ClusterNumeric/Clusterer.cs:114-148 | a recomputed centroid row has one component per data dimension |
| KMeansSpec.CentroidTimesCount | ClusterNumeric/Clusterer.cs:131-146 | a centroid component times its cluster size equals the sum of that component over the cluster's points |
| KMeansSpec.Means | ClusterNumeric/Clusterer.cs:114-148 | one row per cluster, each with one component per dimension |
| KMeansSpec.MeansFit | ClusterNumeric/Clusterer.cs:58-60 | every point can be compared with every recomputed centroid |
| KMeansSpec.SingleClusterCentroidIsMean | ClusterNumeric/Clusterer.cs:114-148 | with one cluster its centroid is the mean of the whole data set |
| KMeansSpec.SingleClusterSums | ClusterNumeric/Clusterer.cs:131-138 | with one cluster every point is accumulated and counted |
| KMeansSpec.Reassign | ClusterNumeric/Clusterer.cs:49-89 | the step keeps one id per point, and when it reports a change the assignment differs from the old one and leaves no cluster empty |
| KMeansSpec.ReassignUnchanged | ClusterNumeric/Clusterer.cs:71-83 | the step reports no change exactly when nothing moves or a cluster would be emptied, and then the assignment is untouched |
| KMeansSpec.ReassignCommitted | ClusterNumeric/Clusterer.cs:56-87 | a committed step moves at least one point, sends every point to its nearest centroid and leaves no cluster empty |
| KMeansSpec.ReassignKeepsAssignable | ClusterNumeric/Clusterer.cs:73-87 | the step keeps ids in range and every cluster non-empty |
| KMeansSpec.Cost | ClusterNumeric/Clusterer.cs:106-112 | a quality measure the source never computes, built from its `Distance` (without the square root): each point's squared distance to its own cluster's centroid, summed; it is never negative |
| KMeansSpec.ProposedLowersCost | ClusterNumeric/Clusterer.cs:56-69 | against fixed centroids, sending every point to its nearest centroid does not raise the within-cluster cost |
| KMeansSpec.ReassignLowersCost | ClusterNumeric/Clusterer.cs:49-89 | the guarded reassignment step does not raise the within-cluster cost against the centroids it compared with, whether it commits or not |
| KMeansSpec.Refine | ClusterNumeric/Clusterer.cs:32-41 | the loop runs at most its budget of iterations and ends with ids in `[0, k)` and no empty cluster |
| KMeansSpec.Iteration | ClusterNumeric/Clusterer.cs:36-41 | a loop entered with budget left runs at least one and at most that many iterations, keeping every cluster non-empty |
| KMeansSpec.RefineStopsConverged | ClusterNumeric/Clusterer.cs:36-41 | a run that stops before its budget is spent is at a fixed point: recomputing the means and reassigning moves no point |
| KMeansSpec.RefineShape | ClusterNumeric/Clusterer.cs:36-41 | once the loop has run, the table has `k` rows of `d` components |
| KMeansSpec.RefineReproduces | ClusterNumeric/Clusterer.cs:36-41 | after the loop the table fits every point, and the nearest-centroid rule on the final centroids reproduces the final assignment unless it would empty a cluster (the last step was rejected); this holds also when the budget ran out |
| KMeansSpec.ResumesStart | ClusterNumeric/Clusterer.cs:32-36 | proof helper for `Iterate`: before the first iteration the reference run is the remainder of itself with nothing done |
| KMeansSpec.ResumesSpent | ClusterNumeric/Clusterer.cs:36 | proof helper for `Iterate`: once the budget is spent the run ends with the current assignment, centroids and iteration count |
| KMeansSpec.RefineUnfold | ClusterNumeric/Clusterer.cs:36-41 | one iteration, from any centroids: a committed step hands the remaining budget on, an idle or rejected one ends the run |
| KMeansSpec.Train | ClusterNumeric/Clusterer.cs:18-41 | the whole fit runs at most `10 n` iterations and ends with ids in `[0, k)`, no empty cluster, and `k` centroid rows of the data's width |
| KMeansSpec.ZeroCentroids | ClusterNumeric/Clusterer.cs:24 | the freshly allocated table has `k` rows of `d` zeros |
| KMeansSpec.TrainReproduces | ClusterNumeric/Clusterer.cs:18-41 | after the whole fit the table fits every training point, and the nearest-centroid rule on it reproduces the fitted assignment unless the last step was rejected |
| KMeansSpec.Converged | ClusterNumeric/Clusterer.cs:36-41 | a fixed point of the loop has `k` centroids that fit every point |
| KMeansSpec.SingleClusterStopsAtOnce | ClusterNumeric/Clusterer.cs:32-41 | with one cluster the loop stops after its first iteration with the assignment unchanged and the centroid equal to the cluster mean |
| KMeansSpec.SingleClusterTrain | ClusterNumeric/Clusterer.cs:18-41 | a whole fit with one cluster runs one iteration, puts every point in cluster 0, and ends with the component-wise mean of the data set as its centroid |
| KMeansSteps.MinIndex | WarSystem.MachineLearning/Clusters/KMeans.cs:133-146 | returns the first index of a minimum entry, in bounds, equal to `ArgMin` |
| KMeansSteps.Distance | WarSystem.MachineLearning/Clusters/KMeans.cs:148-154 | the accumulated sum is the squared distance and is non-negative |
| KMeansSteps.NearestCentroid | WarSystem.MachineLearning/Clusters/KMeans.cs:100-104 | the buffer ends up holding the distance to every centroid, and scanning it yields the nearest centroid, lowest id on ties |
| KMeansSteps.UpdateClustering | WarSystem.MachineLearning/Clusters/KMeans.cs:91-131 | the reported flag and the new assignment are exactly the guarded step `Reassign` of the old assignment |
| KMeansSteps.ProposeClustering | WarSystem.MachineLearning/Clusters/KMeans.cs:93-111 | the fresh copy holds every point's nearest centroid, and the flag is set exactly when some point moved |
| KMeansSteps.HasNoEmptyCluster | WarSystem.MachineLearning/Clusters/KMeans.cs:115-125 | the tally-and-check answers whether every cluster id occurs in the proposal |
| KMeansSteps.UpdateCentroids | WarSystem.MachineLearning/Clusters/KMeans.cs:156-190 | every centroid becomes the mean of its cluster, and the assignment is not written |
| KMeansSteps.CountClusters | WarSystem.MachineLearning/Clusters/KMeans.cs:158-163 | the fresh tally holds the size of every cluster |
| KMeansSteps.ClearCentroids | WarSystem.MachineLearning/Clusters/KMeans.cs:165-171 | every centroid component is set to zero and the rows keep their length |
| KMeansSteps.AccumulatePoints | WarSystem.MachineLearning/Clusters/KMeans.cs:173-180 | every centroid component holds the sum of that component over the cluster's points |
| KMeansSteps.DivideByCounts | WarSystem.MachineLearning/Clusters/KMeans.cs:182-188 | dividing the sums by the tallies turns every row into its cluster's mean |
| KMeansSteps.InitRandom | WarSystem.MachineLearning/Clusters/KMeans.cs:192-209 | the round-robin fill followed by the swap loop leaves exactly the scrambled start `InitialAssignment` |
| KMeansSteps.ClearRows | WarSystem.MachineLearning/Clusters/KMeans.cs:56 | every centroid row is replaced by an all-zero row of the data's width |
| KMeansSteps.Lloyd | WarSystem.MachineLearning/Clusters/KMeans.cs:52-73 | the assignment, centroids and iteration count after the fit are exactly those of the reference run `Train` |
| KMeansSteps.Iterate | WarSystem.MachineLearning/Clusters/KMeans.cs:64-73 | the loop ends in exactly the state the reference loop `Refine` computes from the same start and budget |
| KMeansSteps.Step | WarSystem.MachineLearning/Clusters/KMeans.cs:68-73 | one pass of the loop body sets the centroids to the means of the old assignment, and with no change leaves the assignment untouched; measured against the reference run, a change hands on the remaining budget and no change ends the run in the new state |
| Clusters.KMeans.constructor | WarSystem.MachineLearning/Clusters/KMeans.cs:31-36 | a fresh table with one unallocated (empty) row per cluster |
| Clusters.KMeans.FromCentroids | WarSystem.MachineLearning/Clusters/KMeans.cs:38-43 | the estimator adopts the caller's table itself, and the cluster count is its length |
| Clusters.KMeans.Fit | WarSystem.MachineLearning/Clusters/KMeans.cs:50-74 | the new assignment array and the centroid table hold exactly the outcome of `Train`, so the loop ran at most `10 n` times and left no cluster empty; every row has the data's width, so `Predict` accepts the training points, and on them it reproduces the fit unless the last step was rejected |
| Clusters.KMeans.Predict | WarSystem.MachineLearning/Clusters/KMeans.cs:76-89 | one id per input point, in order, each in `[0, k)` and equal to that point's nearest centroid, with nothing modified |
| ClusterNumeric.Clusterer.constructor | ClusterNumeric/Clusterer.cs:11-16 | a fresh table with one unallocated (empty) row per cluster |
| ClusterNumeric.Clusterer.Cluster | ClusterNumeric/Clusterer.cs:18-47 | returns a fresh array distinct from the internal one, equal to it and to the assignment of `Train`, after at most `10 n` iterations, and leaves one centroid row of the data's width per cluster |

## Left out

- The console output of the initial clustering (KMeans.cs:60-62, Clusterer.cs:28-30) is not modelled. It is I/O and changes no state.
- `System.Random` is not modelled: its draws are a parameter. Two runs given the same draws produce the same fit.
- `Math.Sqrt`, `Math.Pow` and IEEE `double` arithmetic are not modelled: values are exact reals. The model does not capture rounding, overflow, or the NaN centroids a division by an empty cluster would give.
- `Predict`'s lazy `IEnumerable` is modelled as the complete sequence of ids.
- The preset centroids of the `KMeans(double[][])` constructor are only used by `Predict`. `Fit` replaces every row, and the model does the same.
- Centroid rows are values, so the model does not capture aliasing of individual rows. Such aliasing happens when a preset table shares a row array with other code. Aliasing of the table itself is modelled.
- The cluster count is a `nat`, so a negative count is not modelled. The source throws when it allocates the table.
- The 32-bit overflow of `numTuples * 10` for very large inputs is not modelled: the bound is an unbounded integer.
- The regression classes (SimpleRegression.cs, RegressionExtensions.cs) are not part of this model. They are closed-form floating-point formulas.
- Clusters.KMeans.Predict: its contract does not itself say that predicting the training set reproduces the fitted assignment. That holds unless the last step was rejected for emptying a cluster; after a rejection the nearest centroids may differ from the assignment. `Fit` and `RefineReproduces` state this, whether the loop stopped because nothing moved or because the budget ran out.
- KMeansSpec.PartialSquaredDistance: zero distance is not stated to imply equal components; only non-negativity, symmetry and zero distance for equal components are stated.
- KMeansSteps.Step: its contract states the new centroids and that no change leaves the assignment as it was. It does not repeat which assignment a change installs (the nearest-centroid proposal) or the rejection rule. `UpdateClustering`, which `Step` calls, states both as equality with `Reassign`, and `Step` states the iteration's effect on the reference run. Repeating them in `Step`'s contract makes the proof of `Iterate` too costly for the solver.
- KMeansSpec.ReassignLowersCost: the within-cluster cost is shown not to rise only across the reassignment half of an iteration. The other half is not proved: recomputing each centroid as its cluster's mean does not raise the cost, because the mean minimises a cluster's sum of squared distances. So the model does not prove that the cost never rises from one committed iteration to the next.

/**
 * The imperative steps of Lloyd's algorithm that `KMeans` and `Clusterer`
 * share line for line: the distance and arg-min scans, the guarded
 * reassignment, the centroid recomputation and the random initialisation.
 * Each works on the arrays the classes own and is proved against the
 * functions of KMeansSpec.
 */
module KMeansSteps {
  import opened KMeansSpec

  /** Index of the first smallest entry: a scan that replaces the best only on a strict `<`. */
  method MinIndex(distances: array<real>) returns (indexOfMin: int)
    requires distances.Length >= 1
    ensures IsFirstMin(distances[..], indexOfMin)
    ensures indexOfMin == ArgMin(distances[..])
  {
    indexOfMin := 0;
    var smallDist := distances[0];
    for k := 1 to distances.Length
      invariant 0 <= indexOfMin < k
      invariant indexOfMin == ArgMinUpTo(distances[..], k)
      invariant smallDist == distances[indexOfMin]
    {
      if distances[k] < smallDist {
        smallDist := distances[k];
        indexOfMin := k;
      }
    }
  }

  /** Accumulated squared differences between a point and a centroid (the square root is left out). */
  method Distance(tuple: seq<real>, centroid: seq<real>) returns (sumSquaredDiffs: real)
    requires |tuple| <= |centroid|
    ensures sumSquaredDiffs == SquaredDistance(tuple, centroid)
    ensures sumSquaredDiffs >= 0.0
  {
    sumSquaredDiffs := 0.0;
    for j := 0 to |tuple|
      invariant sumSquaredDiffs == PartialSquaredDistance(tuple, centroid, j)
    {
      sumSquaredDiffs := sumSquaredDiffs + (tuple[j] - centroid[j]) * (tuple[j] - centroid[j]);
    }
  }

  /** Fills `distances` with the distances from `point` to every centroid and picks the nearest. */
  method NearestCentroid(point: seq<real>, centroids: array<seq<real>>, distances: array<real>) returns (id: int)
    requires centroids.Length >= 1 && distances.Length == centroids.Length
    requires Fits(point, centroids[..])
    modifies distances
    ensures distances[..] == Distances(point, centroids[..])
    ensures id == Nearest(point, centroids[..])
  {
    for k := 0 to centroids.Length
      invariant forall c :: 0 <= c < k ==> distances[c] == SquaredDistance(point, centroids[c])
    {
      distances[k] := Distance(point, centroids[k]);
    }
    assert distances[..] == Distances(point, centroids[..]);
    id := MinIndex(distances);
  }

  /**
   * Proposes the nearest centroid for every point; commits the proposal only
   * when some point moves and no cluster would be left empty, and reports
   * whether it committed.
   */
  method UpdateClustering(data: seq<seq<real>>, clustering: array<int>, centroids: array<seq<real>>) returns (changed: bool)
    requires clustering.Length == |data| && centroids.Length >= 1
    requires AllFit(data, centroids[..])
    modifies clustering
    ensures Outcome(changed, clustering[..]) == Reassign(data, centroids[..], old(clustering[..]))
  {
    ghost var before := clustering[..];
    ghost var cents := centroids[..];
    var newClustering;
    newClustering, changed := ProposeClustering(data, clustering, centroids);
    ghost var proposal := Proposed(data, cents);
    assert newClustering[..] == proposal;
    if !changed {
      assert proposal == before;
      assert Reassign(data, cents, before) == Outcome(false, before);
      assert Outcome(changed, clustering[..]) == Reassign(data, cents, before);
      return;
    }
    assert proposal != before;
    var noneEmpty := HasNoEmptyCluster(newClustering, centroids.Length);
    if !noneEmpty {
      assert Reassign(data, cents, before) == Outcome(false, before);
      changed := false;
      assert Outcome(changed, clustering[..]) == Reassign(data, cents, before);
      return;
    }
    assert Reassign(data, cents, before) == Outcome(true, proposal);
    forall i | 0 <= i < clustering.Length {
      clustering[i] := newClustering[i];
    }
    assert clustering[..] == proposal;
    assert centroids[..] == cents;
    assert Outcome(changed, clustering[..]) == Reassign(data, cents, before);
  }

  /** A fresh copy of the clustering with every point moved to its nearest centroid, and whether any point moved. */
  method ProposeClustering(data: seq<seq<real>>, clustering: array<int>, centroids: array<seq<real>>)
    returns (newClustering: array<int>, changed: bool)
    requires clustering.Length == |data| && centroids.Length >= 1
    requires AllFit(data, centroids[..])
    ensures fresh(newClustering) && newClustering.Length == |data|
    ensures forall t :: 0 <= t < |data| ==> newClustering[t] == Nearest(data[t], centroids[..])
    ensures changed <==> exists t :: 0 <= t < |data| && newClustering[t] != clustering[t]
  {
    changed := false;
    newClustering := new int[clustering.Length];
    forall i | 0 <= i < clustering.Length {
      newClustering[i] := clustering[i];
    }
    var distances := new real[centroids.Length];
    ghost var cents := centroids[..];

    for i := 0 to |data|
      invariant centroids[..] == cents
      invariant forall t :: 0 <= t < i ==> newClustering[t] == Nearest(data[t], cents)
      invariant forall t :: i <= t < |data| ==> newClustering[t] == clustering[t]
      invariant changed <==> exists t :: 0 <= t < i && newClustering[t] != clustering[t]
    {
      var newClusterId := NearestCentroid(data[i], centroids, distances);
      if newClusterId != newClustering[i] {
        changed := true;
        newClustering[i] := newClusterId;
      }
    }
  }

  /** Whether every cluster id below `k` occurs in the clustering. */
  method HasNoEmptyCluster(clustering: array<int>, k: nat) returns (noneEmpty: bool)
    requires InRange(clustering[..], k)
    ensures noneEmpty == NoEmptyCluster(clustering[..], k)
  {
    var clusterCounts := CountClusters(clustering, k);
    for c := 0 to k
      invariant forall c' :: 0 <= c' < c ==> Count(clustering[..], c') > 0
    {
      if clusterCounts[c] == 0 {
        return false;
      }
    }
    return true;
  }

  /**
   * Tallies the clusters, zeroes the centroids, accumulates every point into
   * its cluster's centroid and divides by the tally: afterwards every centroid
   * is the mean of its cluster.
   */
  method UpdateCentroids(data: seq<seq<real>>, ghost d: nat, clustering: array<int>, centroids: array<seq<real>>)
    requires Rectangular(data, d) && Assignable(|data|, centroids.Length, clustering[..])
    requires forall c :: 0 <= c < centroids.Length ==> |centroids[c]| == d
    modifies centroids
    ensures centroids[..] == Means(data, clustering[..], centroids.Length, d)
  {
    ghost var assign := clustering[..];
    var clusterCounts := CountClusters(clustering, centroids.Length);
    ClearCentroids(centroids, d);
    AccumulatePoints(data, d, clustering, centroids);
    DivideByCounts(data, d, clustering, centroids, clusterCounts);
  }

  /** The size of every cluster. */
  method CountClusters(clustering: array<int>, k: nat) returns (clusterCounts: array<int>)
    requires InRange(clustering[..], k)
    ensures fresh(clusterCounts) && clusterCounts.Length == k
    ensures forall c :: 0 <= c < k ==> clusterCounts[c] == Count(clustering[..], c)
  {
    clusterCounts := new int[k](_ => 0);
    for i := 0 to clustering.Length
      invariant forall c :: 0 <= c < k ==> clusterCounts[c] == Count(clustering[..i], c)
    {
      var clusterId := clustering[i];
      forall c | 0 <= c < k
        ensures Count(clustering[..i + 1], c) == Count(clustering[..i], c) + (if clustering[i] == c then 1 else 0)
      {
        CountPrefix(clustering[..], i, c);
      }
      clusterCounts[clusterId] := clusterCounts[clusterId] + 1;
    }
    assert clustering[..clustering.Length] == clustering[..];
  }

  /** Every component of every centroid set to zero. */
  method ClearCentroids(centroids: array<seq<real>>, ghost d: nat)
    requires forall c :: 0 <= c < centroids.Length ==> |centroids[c]| == d
    modifies centroids
    ensures forall c :: 0 <= c < centroids.Length ==> centroids[c] == seq(d, _ => 0.0)
  {
    for k := 0 to centroids.Length
      invariant forall c :: 0 <= c < k ==> centroids[c] == seq(d, _ => 0.0)
      invariant forall c :: k <= c < centroids.Length ==> centroids[c] == old(centroids[c])
    {
      for j := 0 to |centroids[k]|
        invariant |centroids[k]| == d
        invariant forall t :: 0 <= t < j ==> centroids[k][t] == 0.0
        invariant forall c :: 0 <= c < k ==> centroids[c] == seq(d, _ => 0.0)
        invariant forall c :: k < c < centroids.Length ==> centroids[c] == old(centroids[c])
      {
        centroids[k] := centroids[k][j := 0.0];
      }
    }
  }

  /** Adds every point, component by component, to the centroid of its cluster. */
  method AccumulatePoints(data: seq<seq<real>>, ghost d: nat, clustering: array<int>, centroids: array<seq<real>>)
    requires Rectangular(data, d) && clustering.Length == |data| && InRange(clustering[..], centroids.Length)
    requires forall c :: 0 <= c < centroids.Length ==> centroids[c] == seq(d, _ => 0.0)
    modifies centroids
    ensures forall c :: 0 <= c < centroids.Length ==> |centroids[c]| == d
    ensures forall c, j :: 0 <= c < centroids.Length && 0 <= j < d ==>
              centroids[c][j] == ClusterSum(data, clustering[..], c, j, |data|)
  {
    ghost var assign := clustering[..];
    for i := 0 to |data|
      invariant forall c :: 0 <= c < centroids.Length ==> |centroids[c]| == d
      invariant forall c, j :: 0 <= c < centroids.Length && 0 <= j < d ==>
                  centroids[c][j] == ClusterSum(data, assign, c, j, i)
    {
      var clusterId := clustering[i];
      for j := 0 to |data[i]|
        invariant forall c :: 0 <= c < centroids.Length ==> |centroids[c]| == d
        invariant forall t :: 0 <= t < j ==> centroids[clusterId][t] == ClusterSum(data, assign, clusterId, t, i + 1)
        invariant forall t :: j <= t < d ==> centroids[clusterId][t] == ClusterSum(data, assign, clusterId, t, i)
        invariant forall c, t :: 0 <= c < centroids.Length && c != clusterId && 0 <= t < d ==>
                    centroids[c][t] == ClusterSum(data, assign, c, t, i)
      {
        centroids[clusterId] := centroids[clusterId][j := centroids[clusterId][j] + data[i][j]];
      }
    }
  }

  /** Divides every centroid component by the size of its cluster. */
  method DivideByCounts(data: seq<seq<real>>, ghost d: nat, clustering: array<int>, centroids: array<seq<real>>, clusterCounts: array<int>)
    requires Rectangular(data, d) && Assignable(|data|, centroids.Length, clustering[..])
    requires clusterCounts.Length == centroids.Length
    requires forall c :: 0 <= c < centroids.Length ==> clusterCounts[c] == Count(clustering[..], c)
    requires forall c :: 0 <= c < centroids.Length ==> |centroids[c]| == d
    requires forall c, j :: 0 <= c < centroids.Length && 0 <= j < d ==>
               centroids[c][j] == ClusterSum(data, clustering[..], c, j, |data|)
    modifies centroids
    ensures centroids[..] == Means(data, clustering[..], centroids.Length, d)
  {
    ghost var assign := clustering[..];
    for k := 0 to centroids.Length
      invariant forall c :: 0 <= c < k ==> centroids[c] == Centroid(data, assign, c, d)
      invariant forall c :: k <= c < centroids.Length ==> centroids[c] == old(centroids[c])
    {
      for j := 0 to |centroids[k]|
        invariant |centroids[k]| == d
        invariant forall t :: 0 <= t < j ==> centroids[k][t] == ClusterSum(data, assign, k, t, |data|) / (clusterCounts[k] as real)
        invariant forall t :: j <= t < d ==> centroids[k][t] == ClusterSum(data, assign, k, t, |data|)
        invariant forall c :: 0 <= c < k ==> centroids[c] == Centroid(data, assign, c, d)
        invariant forall c :: k < c < centroids.Length ==> centroids[c] == old(centroids[c])
      {
        centroids[k] := centroids[k][j := centroids[k][j] / (clusterCounts[k] as real)];
      }
    }
  }

  /**
   * Round-robin assignment followed by the Fisher-Yates scramble; `draws[i]`
   * stands for the random source's pick in [i, n).
   */
  method InitRandom(data: seq<seq<real>>, clustering: array<int>, k: nat, draws: seq<int>)
    requires k >= 1 && clustering.Length == |data| && ValidDraws(draws, |data|)
    modifies clustering
    ensures clustering[..] == InitialAssignment(|data|, k, draws)
  {
    var numTuples := |data|;
    var clusterId := 0;
    for i := 0 to numTuples
      invariant clusterId == i % k
      invariant forall t :: 0 <= t < i ==> clustering[t] == t % k
    {
      clustering[i] := clusterId;
      DivModNext(i, k);
      clusterId := clusterId + 1;
      if clusterId == k {
        clusterId := 0;
      }
    }
    assert clustering[..] == RoundRobin(numTuples, k);

    for i := 0 to numTuples
      invariant clustering[..] == Shuffled(RoundRobin(numTuples, k), draws, i)
    {
      ghost var before := clustering[..];
      var r := draws[i];
      var tmp := clustering[r];
      clustering[r] := clustering[i];
      clustering[i] := tmp;
      assert clustering[..] == Swap(before, i, r);
    }
  }

  /**
   * The whole fit as both classes run it: fresh assignment array, zeroed
   * centroid rows, random initial assignment, then the refinement loop with a
   * budget of ten iterations per point. The outcome is exactly the reference `Train`.
   */
  method Lloyd(data: seq<seq<real>>, centroids: array<seq<real>>, draws: seq<int>)
    returns (clustering: array<int>, ghost iterations: nat)
    requires 1 <= centroids.Length <= |data| && Rectangular(data, |data[0]|) && ValidDraws(draws, |data|)
    modifies centroids
    ensures fresh(clustering)
    ensures var r := Train(data, centroids.Length, draws);
      clustering[..] == r.assignment && centroids[..] == r.centroids && iterations == r.iterations
  {
    var numTuples := |data|;
    var numValues := |data[0]|;
    clustering := new int[numTuples];
    ClearRows(centroids, numValues);
    InitRandom(data, clustering, centroids.Length, draws);
    InitialAssignmentValid(numTuples, centroids.Length, draws);
    var maxCount := numTuples * 10;
    ghost var trained := Refine(data, centroids.Length, numValues, clustering[..], centroids[..], maxCount);
    assert trained == Train(data, centroids.Length, draws);
    iterations := Iterate(data, numValues, clustering, centroids, maxCount);
  }

  /** Every centroid row replaced by a fresh all-zero row of `numValues` components. */
  method ClearRows(centroids: array<seq<real>>, numValues: nat)
    modifies centroids
    ensures centroids[..] == ZeroCentroids(centroids.Length, numValues)
  {
    for k := 0 to centroids.Length
      invariant forall c :: 0 <= c < k ==> centroids[c] == seq(numValues, _ => 0.0)
    {
      centroids[k] := seq(numValues, _ => 0.0);
    }
  }

  /**
   * The refinement loop: recompute the centroids and reassign, for as long as
   * the assignment changes and fewer than `maxCount` iterations have run.
   */
  method Iterate(data: seq<seq<real>>, ghost d: nat, clustering: array<int>, centroids: array<seq<real>>, maxCount: nat)
    returns (ghost iterations: nat)
    requires 1 <= centroids.Length && Rectangular(data, d)
    requires Assignable(|data|, centroids.Length, clustering[..])
    requires forall c :: 0 <= c < centroids.Length ==> |centroids[c]| == d
    modifies clustering, centroids
    ensures var r := Refine(data, centroids.Length, d, old(clustering[..]), old(centroids[..]), maxCount);
      clustering[..] == r.assignment && centroids[..] == r.centroids && iterations == r.iterations
  {
    var changed := true;
    var ct := 0;
    ghost var k, left := centroids.Length, maxCount;
    ghost var assign, cents := clustering[..], centroids[..];
    ghost var goal := Refine(data, k, d, assign, cents, left);
    ResumesStart(data, k, d, assign, cents, left);

    while changed && ct < maxCount
      invariant 0 <= ct <= maxCount && left == maxCount - ct
      invariant clustering[..] == assign && centroids[..] == cents
      invariant Assignable(|data|, k, assign)
      invariant forall c :: 0 <= c < k ==> |cents[c]| == d
      invariant changed ==> Resumes(goal, data, k, d, assign, cents, left, ct)
      invariant !changed ==> goal == FitState(assign, cents, ct)
      decreases left
    {
      changed := Step(data, d, clustering, centroids, goal, left, ct);
      ct, left := ct + 1, left - 1;
      assign, cents := clustering[..], centroids[..];
    }
    if changed {
      ResumesSpent(goal, data, k, d, assign, cents, ct);
    }
    iterations := ct;
  }

  /**
   * One iteration of the loop body: recompute the centroids, then reassign
   * against them. Measured against the reference run `goal`, this is the
   * iteration after `done` ones, with `left` still allowed.
   */
  method Step(data: seq<seq<real>>, ghost d: nat, clustering: array<int>, centroids: array<seq<real>>,
              ghost goal: FitState, ghost left: nat, ghost done: nat)
    returns (changed: bool)
    requires 1 <= centroids.Length && Rectangular(data, d)
    requires Assignable(|data|, centroids.Length, clustering[..])
    requires forall c :: 0 <= c < centroids.Length ==> |centroids[c]| == d
    requires left >= 1 && Resumes(goal, data, centroids.Length, d, clustering[..], centroids[..], left, done)
    modifies clustering, centroids
    ensures centroids[..] == Means(data, old(clustering[..]), centroids.Length, d)
    ensures !changed ==> clustering[..] == old(clustering[..])
    ensures Assignable(|data|, centroids.Length, clustering[..])
    ensures forall c :: 0 <= c < centroids.Length ==> |centroids[c]| == d
    ensures changed ==> Resumes(goal, data, centroids.Length, d, clustering[..], centroids[..], left - 1, done + 1)
    ensures !changed ==> goal == FitState(clustering[..], centroids[..], done + 1)
  {
    ghost var assign, cents := clustering[..], centroids[..];
    UpdateCentroids(data, d, clustering, centroids);
    MeansFit(data, assign, centroids.Length, d);
    changed := UpdateClustering(data, clustering, centroids);
    RefineUnfold(data, centroids.Length, d, assign, cents, left, centroids[..], changed, clustering[..], goal, done);
  }
}

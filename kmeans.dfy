/**
 * The `KMeans` estimator: a fixed number of clusters, a centroid table that
 * `Fit` recomputes, and the assignment of the training points it leaves behind.
 */
module Clusters {
  import opened KMeansSpec
  import KMeansSteps

  class KMeans {
    /** Number of clusters. */
    const clusters: nat
    /** One centroid row per cluster; the table itself is fixed, its rows are replaced by `Fit`. */
    const centroids: array<seq<real>>
    /** Cluster id of every training point after the last `Fit`. */
    var clustering: array<int>

    ghost predicate Valid()
    {
      centroids.Length == clusters
    }

    /** An estimator for `numClusters` clusters whose centroid rows are not yet allocated. */
    constructor (numClusters: nat)
      ensures Valid() && clusters == numClusters && fresh(centroids)
      ensures forall c :: 0 <= c < numClusters ==> centroids[c] == []
    {
      clusters := numClusters;
      centroids := new seq<real>[numClusters](_ => []);
      clustering := new int[0];
    }

    /** An estimator that adopts a caller's centroid table (shared, not copied), ready for `Predict`. */
    constructor FromCentroids(preset: array<seq<real>>)
      ensures Valid() && centroids == preset && clusters == preset.Length
    {
      centroids := preset;
      clusters := preset.Length;
      clustering := new int[0];
    }

    /**
     * Fits the model to `data`, with `draws` standing for the picks of the
     * seeded random source. Centroids and assignment end up exactly as the
     * reference run `Train` says: every cluster non-empty, and, unless the
     * iteration budget ran out, a fixed point of the update steps. The table
     * then has one row of the data's width per cluster, so `Predict` accepts
     * the training points, and on them it reproduces the fitted assignment
     * unless the last step was rejected for emptying a cluster.
     */
    method Fit(data: seq<seq<real>>, draws: seq<int>) returns (ghost iterations: nat)
      requires Valid() && 1 <= clusters <= |data| && Rectangular(data, |data[0]|) && ValidDraws(draws, |data|)
      modifies this, centroids
      ensures Valid() && fresh(clustering)
      ensures var r := Train(data, clusters, draws);
        clustering[..] == r.assignment && centroids[..] == r.centroids && iterations == r.iterations
      ensures forall c :: 0 <= c < clusters ==> |centroids[c]| == |data[0]|
      ensures AllFit(data, centroids[..])
      ensures Proposed(data, centroids[..]) == clustering[..] || !NoEmptyCluster(Proposed(data, centroids[..]), clusters)
    {
      clustering, iterations := KMeansSteps.Lloyd(data, centroids, draws);
      TrainReproduces(data, clusters, draws);
    }

    /** The nearest centroid of every point, lowest cluster id on ties. */
    method Predict(data: seq<seq<real>>) returns (ids: seq<int>)
      requires Valid() && (|data| > 0 ==> clusters >= 1) && AllFit(data, centroids[..])
      ensures |ids| == |data|
      ensures forall i :: 0 <= i < |data| ==> 0 <= ids[i] < clusters
      ensures forall i :: 0 <= i < |data| ==> ids[i] == Nearest(data[i], centroids[..])
    {
      var distances := new real[clusters];
      ids := [];
      for i := 0 to |data|
        invariant |ids| == i
        invariant forall t :: 0 <= t < i ==> ids[t] == Nearest(data[t], centroids[..])
      {
        var id := KMeansSteps.NearestCentroid(data[i], centroids, distances);
        ids := ids + [id];
      }
    }
  }
}

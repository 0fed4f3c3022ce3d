/**
 * The `Clusterer` of the console demo: the same Lloyd iteration as `KMeans`,
 * returning a copy of the final assignment.
 */
module ClusterNumeric {
  import opened KMeansSpec
  import KMeansSteps

  class Clusterer {
    /** Number of clusters. */
    const numClusters: nat
    /** One centroid row per cluster, recomputed by `Cluster`. */
    const centroids: array<seq<real>>
    /** Cluster id of every point after the last `Cluster`. */
    var clustering: array<int>

    ghost predicate Valid()
    {
      centroids.Length == numClusters
    }

    constructor (numClusters: nat)
      ensures Valid() && this.numClusters == numClusters && fresh(centroids)
      ensures forall c :: 0 <= c < numClusters ==> centroids[c] == []
    {
      this.numClusters := numClusters;
      centroids := new seq<real>[numClusters](_ => []);
      clustering := new int[0];
    }

    /**
     * Clusters `data`, with `draws` standing for the picks of the seeded
     * random source, and returns a fresh copy of the final assignment, which
     * is the assignment of the reference run `Train`, after at most ten
     * iterations per point.
     */
    method Cluster(data: seq<seq<real>>, draws: seq<int>) returns (result: array<int>, ghost iterations: nat)
      requires Valid() && 1 <= numClusters <= |data| && Rectangular(data, |data[0]|) && ValidDraws(draws, |data|)
      modifies this, centroids
      ensures Valid() && fresh(clustering) && fresh(result) && result != clustering
      ensures var r := Train(data, numClusters, draws);
        result[..] == r.assignment && clustering[..] == r.assignment && centroids[..] == r.centroids &&
        iterations == r.iterations
      ensures iterations <= |data| * 10
      ensures forall c :: 0 <= c < numClusters ==> |centroids[c]| == |data[0]|
    {
      clustering, iterations := KMeansSteps.Lloyd(data, centroids, draws);
      result := new int[|data|];
      forall i | 0 <= i < clustering.Length {
        result[i] := clustering[i];
      }
    }
  }
}

/** The clustering engine itself: an object that owns a dataset, the current
    centroids and the current labels, and refines them in place round by round. */
module KMeansEngine {
  import opened Distance
  import opened Clustering
  import opened ClusteringLemmas

  /** Number of rounds a counted loop `for (it = 0; it < m; ++it)` performs. */
  function RoundCount(m: int): nat
  {
    if m > 0 then m else 0
  }

  class KMeans {
    /** Number of clusters. */
    const k: nat
    /** Number of assign-then-update rounds a run performs. */
    const maxIterations: int
    /** The points to be clustered; never changed after construction. */
    const data: seq<Point>
    /** Cluster index of every point, as computed by the latest assignment. */
    var labels: seq<int>
    /** The current centroids, one per cluster once initialized. */
    var centroids: seq<Point>

    /** Object invariant: the points share one dimension, and the centroids,
        when there are any, are k points of that dimension. */
    ghost predicate Valid()
      reads this
    {
      && Uniform(data)
      && (|centroids| == 0 || |centroids| == k)
      && HasDim(centroids, Dim(data))
    }

    constructor (k: nat, maxIterations: int, data: seq<Point>)
      requires Uniform(data)
      ensures Valid()
      ensures this.k == k && this.maxIterations == maxIterations && this.data == data
      ensures labels == [] && centroids == []
    {
      this.k := k;
      this.maxIterations := maxIterations;
      this.data := data;
      labels := [];
      centroids := [];
    }

    /** Discards the current centroids and takes the points at the first k
        positions of the given ordering of the dataset as the new ones. */
    method InitializeCentroids(indices: seq<int>)
      requires Valid()
      requires IsPermutation(indices, |data|)
      requires k <= |data|
      modifies this`centroids
      ensures Valid()
      ensures |centroids| == k
      ensures forall i :: 0 <= i < k ==> centroids[i] == data[indices[i]]
      ensures centroids == InitialCentroids(data, indices, k)
      ensures labels == old(labels)
    {
      centroids := [];
      var i := 0;
      while i < k
        invariant 0 <= i <= k
        invariant centroids == InitialCentroids(data, indices, i)
      {
        centroids := centroids + [data[indices[i]]];
        i := i + 1;
      }
    }

    /** Labels every point with the first of the k centroids nearest to it. */
    method AssignPointsToClusters()
      requires Valid()
      requires |centroids| == k
      modifies this`labels
      ensures Valid()
      ensures labels == Assignment(data, centroids, k)
      ensures |labels| == |data|
      ensures k == 0 ==> forall i :: 0 <= i < |data| ==> labels[i] == -1
      ensures k > 0 ==> forall i :: 0 <= i < |data| ==> IsFirstNearest(data[i], centroids, k, labels[i])
      ensures centroids == old(centroids)
    {
      labels := [];
      var n := 0;
      while n < |data|
        invariant 0 <= n <= |data|
        invariant |labels| == n
        invariant forall t :: 0 <= t < n ==> labels[t] == Nearest(data[t], centroids, k)
      {
        var minCluster := NearestCentroid(data[n]);
        labels := labels + [minCluster];
        n := n + 1;
      }
      if k > 0 {
        AssignmentIsNearest(data, centroids, k);
      }
    }

    /** The scan for one point: the first of the k centroids at minimum
        distance, or -1 when there are no centroids to compare with. */
    method NearestCentroid(point: Point) returns (minCluster: int)
      requires Valid()
      requires |centroids| == k
      requires |point| == Dim(data)
      ensures minCluster == Nearest(point, centroids, k)
    {
      var minDistance := 0.0;
      minCluster := -1;
      var i := 0;
      while i < k
        invariant 0 <= i <= k
        invariant minCluster == Nearest(point, centroids, i)
        invariant minCluster != -1 ==> minDistance == SqDistance(point, centroids[minCluster])
      {
        var distance := CalculateDistance(point, centroids[i]);
        if minCluster == -1 || distance < minDistance {
          minDistance := distance;
          minCluster := i;
        }
        i := i + 1;
      }
    }

    /** Replaces the centroids by the coordinate-wise means of the clusters
        that the current labels describe. */
    method UpdateCentroids()
      requires Valid()
      requires |data| > 0
      requires |labels| == |data|
      requires LabelsInRange(labels, k)
      requires Dim(data) > 0 ==> NoEmptyCluster(labels, k)
      modifies this`centroids
      ensures Valid()
      ensures centroids == UpdatedCentroids(data, labels, k)
      ensures labels == old(labels)
    {
      var dim := |data[0]|;
      var newCentroids: seq<seq<real>> := seq(k, _ => seq(dim, _ => 0.0));
      var clusterSizes := new nat[k](_ => 0);
      var i := 0;
      while i < |data|
        invariant 0 <= i <= |data|
        invariant |newCentroids| == k && HasDim(newCentroids, dim)
        invariant forall c :: 0 <= c < k ==> clusterSizes[c] == ClusterSize(labels, c, i)
        invariant forall c, j :: 0 <= c < k && 0 <= j < dim ==>
          newCentroids[c][j] == ClusterSum(data, labels, c, j, i)
      {
        var cluster := labels[i];
        clusterSizes[cluster] := clusterSizes[cluster] + 1;
        var j := 0;
        while j < |data[i]|
          invariant 0 <= j <= dim
          invariant |newCentroids| == k && HasDim(newCentroids, dim)
          invariant forall c, j' :: 0 <= c < k && 0 <= j' < dim ==>
            newCentroids[c][j'] ==
              if c == cluster && j' < j then ClusterSum(data, labels, c, j', i + 1)
              else ClusterSum(data, labels, c, j', i)
        {
          newCentroids := newCentroids[cluster := newCentroids[cluster][j := newCentroids[cluster][j] + data[i][j]]];
          j := j + 1;
        }
        i := i + 1;
      }

      i := 0;
      while i < k
        invariant 0 <= i <= k
        invariant |newCentroids| == k && HasDim(newCentroids, dim)
        invariant forall c, j :: 0 <= c < k && 0 <= j < dim ==>
          newCentroids[c][j] ==
            if c < i then UpdatedCentroids(data, labels, k)[c][j]
            else ClusterSum(data, labels, c, j, |data|)
      {
        var j := 0;
        while j < dim
          invariant 0 <= j <= dim
          invariant |newCentroids| == k && HasDim(newCentroids, dim)
          invariant forall c, j' :: 0 <= c < k && 0 <= j' < dim ==>
            newCentroids[c][j'] ==
              if c < i || (c == i && j' < j) then UpdatedCentroids(data, labels, k)[c][j']
              else ClusterSum(data, labels, c, j', |data|)
        {
          newCentroids := newCentroids[i := newCentroids[i][j := newCentroids[i][j] / (clusterSizes[i] as real)]];
          j := j + 1;
        }
        i := i + 1;
      }

      forall c | 0 <= c < k
        ensures newCentroids[c] == UpdatedCentroids(data, labels, k)[c]
      {
        assert |newCentroids[c]| == dim == |UpdatedCentroids(data, labels, k)[c]|;
      }
      centroids := newCentroids;
    }

    /** Initializes once, then performs exactly as many assign-then-update
        rounds as maxIterations asks for, with no early exit. */
    method RunKMeans(indices: seq<int>)
      requires Valid()
      requires IsPermutation(indices, |data|)
      requires k <= |data|
      requires NondegenerateRun(data, k, InitialCentroids(data, indices, k), RoundCount(maxIterations))
      modifies this`centroids, this`labels
      ensures Valid()
      ensures centroids == CentroidsAfter(data, k, InitialCentroids(data, indices, k), RoundCount(maxIterations))
      ensures labels == LabelsAfter(data, k, InitialCentroids(data, indices, k), old(labels), RoundCount(maxIterations))
      ensures maxIterations <= 0 ==> centroids == InitialCentroids(data, indices, k) && labels == old(labels)
      ensures maxIterations > 0 ==> |labels| == |data| && LabelsInRange(labels, k)
      ensures maxIterations > 0 && Dim(data) > 0 ==> NoEmptyCluster(labels, k)
    {
      ghost var rounds := RoundCount(maxIterations);
      InitializeCentroids(indices);
      ghost var start := centroids;
      var iteration := 0;
      while iteration < maxIterations
        invariant 0 <= iteration <= rounds
        invariant Valid()
        invariant |centroids| == k
        invariant NondegenerateRun(data, k, start, iteration)
        invariant centroids == CentroidsAfter(data, k, start, iteration)
        invariant labels == LabelsAfter(data, k, start, old(labels), iteration)
      {
        NextRound(data, k, start, rounds, iteration);
        AssignAndUpdate();
        iteration := iteration + 1;
      }
      assert iteration == rounds;
      if rounds > 0 {
        RunLabels(data, k, start, old(labels), rounds);
      }
    }

    /** One iteration of the run loop: an assignment followed by an update. */
    method AssignAndUpdate()
      requires Valid() && |centroids| == k
      requires RoundDefined(data, k, centroids)
      modifies this`centroids, this`labels
      ensures Valid() && |centroids| == k
      ensures labels == Assignment(data, old(centroids), k)
      ensures centroids == Round(data, k, old(centroids))
    {
      AssignPointsToClusters();
      UpdateCentroids();
    }

    /** The distance the assignment compares: the squared Euclidean distance,
        accumulated coordinate by coordinate over the first point's coordinates. */
    method CalculateDistance(point1: Point, point2: Point) returns (distance: real)
      requires |point1| <= |point2|
      ensures distance == SqDistance(point1, point2)
    {
      distance := 0.0;
      var i := 0;
      while i < |point1|
        invariant 0 <= i <= |point1|
        invariant distance == PartialSqDistance(point1, point2, i)
      {
        distance := distance + Sq(point1[i] - point2[i]);
        i := i + 1;
      }
    }
  }
}

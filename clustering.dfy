/** The mathematical vocabulary of one k-means run: which centroid a point is
    assigned to, how big and how heavy each cluster is, what the update step
    computes, and what a fixed number of rounds produces.  The engine's methods
    (module KMeansEngine) are proved against these definitions. */
module Clustering {
  import opened Distance

  /** Number of coordinates of the dataset's points, read off its first point. */
  function Dim(data: seq<Point>): nat
  {
    if |data| == 0 then 0 else |data[0]|
  }

  ghost predicate HasDim(ps: seq<Point>, d: nat)
  {
    forall i :: 0 <= i < |ps| ==> |ps[i]| == d
  }

  /** All points of the dataset have one and the same dimension. */
  ghost predicate Uniform(data: seq<Point>)
  {
    HasDim(data, Dim(data))
  }

  /** The points share one dimension, and the first k centroids exist and
      have that dimension too, so each point can be measured against each. */
  ghost predicate Comparable(data: seq<Point>, cs: seq<Point>, k: nat)
  {
    && Uniform(data)
    && k <= |cs|
    && forall c :: 0 <= c < k ==> |cs[c]| == Dim(data)
  }

  /** indices lists every position 0 .. n-1 exactly once. */
  ghost predicate IsPermutation(indices: seq<int>, n: nat)
  {
    && |indices| == n
    && (forall i :: 0 <= i < n ==> 0 <= indices[i] < n)
    && (forall i, j :: 0 <= i < j < n ==> indices[i] != indices[j])
  }

  /** The first k points of the dataset in the order given by indices. */
  function InitialCentroids(data: seq<Point>, indices: seq<int>, k: nat): seq<Point>
    requires k <= |indices|
    requires forall i :: 0 <= i < k ==> 0 <= indices[i] < |data|
  {
    seq(k, i requires 0 <= i < k => data[indices[i]])
  }

  /** l is the first of the k centroids at minimum distance from p: no centroid
      is closer, and every centroid before l is strictly farther away. */
  ghost predicate IsFirstNearest(p: Point, cs: seq<Point>, k: nat, l: int)
    requires k <= |cs|
    requires forall c :: 0 <= c < k ==> |p| <= |cs[c]|
  {
    && 0 <= l < k
    && (forall j :: 0 <= j < k ==> SqDistance(p, cs[l]) <= SqDistance(p, cs[j]))
    && (forall j :: 0 <= j < l ==> SqDistance(p, cs[l]) < SqDistance(p, cs[j]))
  }

  /** The label the assignment scan gives p after examining the first n
      centroids: -1 while no centroid has been examined, and afterwards the
      current best, which a later centroid replaces only when strictly closer. */
  function Nearest(p: Point, cs: seq<Point>, n: nat): (r: int)
    requires n <= |cs|
    requires forall c :: 0 <= c < n ==> |p| <= |cs[c]|
    ensures n == 0 ==> r == -1
    ensures n > 0 ==> 0 <= r < n
  {
    if n == 0 then -1
    else
      var best := Nearest(p, cs, n - 1);
      if best == -1 || SqDistance(p, cs[n - 1]) < SqDistance(p, cs[best]) then n - 1 else best
  }

  /** The labels of one assignment round: the label of every point of the
      dataset against the first k centroids. */
  function Assignment(data: seq<Point>, cs: seq<Point>, k: nat): (labels: seq<int>)
    requires Comparable(data, cs, k)
    ensures |labels| == |data|
    ensures k == 0 ==> forall i :: 0 <= i < |data| ==> labels[i] == -1
    ensures k > 0 ==> LabelsInRange(labels, k)
  {
    seq(|data|, i requires 0 <= i < |data| => Nearest(data[i], cs, k))
  }

  ghost predicate LabelsInRange(labels: seq<int>, k: nat)
  {
    forall i :: 0 <= i < |labels| ==> 0 <= labels[i] < k
  }

  /** Number of the first n points whose label is c. */
  function ClusterSize(labels: seq<int>, c: int, n: nat): nat
    requires n <= |labels|
  {
    if n == 0 then 0
    else ClusterSize(labels, c, n - 1) + (if labels[n - 1] == c then 1 else 0)
  }

  /** Coordinate j summed over those of the first n points whose label is c. */
  function ClusterSum(data: seq<Point>, labels: seq<int>, c: int, j: nat, n: nat): real
    requires n <= |data| && n <= |labels|
    requires forall i :: 0 <= i < n ==> j < |data[i]|
  {
    if n == 0 then 0.0
    else ClusterSum(data, labels, c, j, n - 1) + (if labels[n - 1] == c then data[n - 1][j] else 0.0)
  }

  /** Every one of the k clusters holds at least one point. */
  ghost predicate NoEmptyCluster(labels: seq<int>, k: nat)
  {
    forall c :: 0 <= c < k ==> ClusterSize(labels, c, |labels|) > 0
  }

  /** The centroids of one update round: coordinate j of centroid c is the
      cluster's coordinate sum divided by the cluster's size.  Points without
      coordinates form no division, so only then may a cluster be empty. */
  function UpdatedCentroids(data: seq<Point>, labels: seq<int>, k: nat): (cs: seq<Point>)
    requires Uniform(data) && |labels| == |data|
    requires Dim(data) > 0 ==> NoEmptyCluster(labels, k)
    ensures |cs| == k && HasDim(cs, Dim(data))
  {
    seq(k, c requires 0 <= c < k =>
      seq(Dim(data), j requires 0 <= j < Dim(data) =>
        ClusterSum(data, labels, c, j, |data|) / (ClusterSize(labels, c, |labels|) as real)))
  }

  /** One round can be carried out from centroids cs: there is at least one
      cluster and at least one point, every point can be compared with every
      centroid, and, when the points have coordinates, the assignment leaves no
      cluster empty (so no division by zero happens). */
  ghost predicate RoundDefined(data: seq<Point>, k: nat, cs: seq<Point>)
  {
    && k > 0
    && |data| > 0
    && Comparable(data, cs, k)
    && (Dim(data) > 0 ==> NoEmptyCluster(Assignment(data, cs, k), k))
  }

  /** The centroids after one assign-then-update round. */
  function Round(data: seq<Point>, k: nat, cs: seq<Point>): (next: seq<Point>)
    requires RoundDefined(data, k, cs)
    ensures |next| == k && HasDim(next, Dim(data))
  {
    UpdatedCentroids(data, Assignment(data, cs, k), k)
  }

  /** The centroids after exactly n assign-then-update rounds from cs. */
  function CentroidsAfter(data: seq<Point>, k: nat, cs: seq<Point>, n: nat): (r: seq<Point>)
    requires NondegenerateRun(data, k, cs, n)
    ensures n > 0 ==> |r| == k && HasDim(r, Dim(data))
    decreases n, 1
  {
    if n == 0 then cs else Round(data, k, CentroidsAfter(data, k, cs, n - 1))
  }

  /** Each of the first n rounds from cs can be carried out: it has k > 0
      clusters and at least one point, and, when the points have coordinates,
      it meets no empty cluster. */
  ghost predicate NondegenerateRun(data: seq<Point>, k: nat, cs: seq<Point>, n: nat)
    decreases n, 0
  {
    n == 0 || (NondegenerateRun(data, k, cs, n - 1) && RoundDefined(data, k, CentroidsAfter(data, k, cs, n - 1)))
  }

  /** The labels after n rounds from cs: those of the last assignment, which
      was made against the centroids of round n - 1; before any round, the
      labels the engine already held. */
  function LabelsAfter(data: seq<Point>, k: nat, cs: seq<Point>, labels0: seq<int>, n: nat): (r: seq<int>)
    requires NondegenerateRun(data, k, cs, n)
    ensures n == 0 ==> r == labels0
    ensures n > 0 ==> |r| == |data| && LabelsInRange(r, k)
  {
    if n == 0 then labels0 else Assignment(data, CentroidsAfter(data, k, cs, n - 1), k)
  }
}

/** Properties of the clustering vocabulary: what the assignment, the update
    and a run of rounds guarantee. */
module ClusteringLemmas {
  import opened Distance
  import opened Clustering

  // ---------------------------------------------------------------------
  // Initialization

  lemma {:induction false} DistinctSeqCard(s: seq<int>)
    requires forall i, j :: 0 <= i < j < |s| ==> s[i] != s[j]
    ensures |set x | x in s| == |s|
  {
    if |s| > 0 {
      var init := s[..|s| - 1];
      DistinctSeqCard(init);
      assert (set x | x in s) == (set x | x in init) + {s[|s| - 1]};
      assert s[|s| - 1] !in (set x | x in init);
    }
  }

  lemma SubsetCard(a: set<int>, b: set<int>)
    requires a <= b
    ensures |a| <= |b|
  {
    assert b == a + (b - a);
  }

  /** A permutation of 0 .. n-1 lists every one of those positions. */
  lemma PermutationCoversRange(indices: seq<int>, n: nat)
    requires IsPermutation(indices, n)
    ensures forall v :: 0 <= v < n ==> v in indices
  {
    var positions := seq(n, i => i);
    var image := set x | x in indices;
    var range := set x | x in positions;
    DistinctSeqCard(indices);
    DistinctSeqCard(positions);
    assert forall x :: x in image ==> x == positions[x];
    assert image <= range;
    forall v | 0 <= v < n
      ensures v in indices
    {
      if v !in indices {
        assert positions[v] in range;
        assert image <= range - {v};
        SubsetCard(image, range - {v});
        assert false;
      }
    }
  }

  /** The initial centroids are k dataset points taken from k different
      positions, so when the dataset holds no point twice they are pairwise
      different, and every one of them is a point of the dataset. */
  lemma InitialCentroidsAreDistinctPoints(data: seq<Point>, indices: seq<int>, k: nat)
    requires IsPermutation(indices, |data|) && k <= |data|
    ensures forall i :: 0 <= i < k ==> InitialCentroids(data, indices, k)[i] in data
    ensures (forall i, j :: 0 <= i < j < |data| ==> data[i] != data[j]) ==>
      forall i, j :: 0 <= i < j < k ==>
        InitialCentroids(data, indices, k)[i] != InitialCentroids(data, indices, k)[j]
  {
  }

  // ---------------------------------------------------------------------
  // Assignment

  /** The scan over n > 0 centroids finds the first of those at minimum
      distance: a centroid replaces the current best only when strictly
      closer, so ties go to the lowest index. */
  lemma {:induction false} NearestIsFirstNearest(p: Point, cs: seq<Point>, n: nat)
    requires 0 < n <= |cs|
    requires forall c :: 0 <= c < n ==> |p| <= |cs[c]|
    ensures IsFirstNearest(p, cs, n, Nearest(p, cs, n))
  {
    if n > 1 {
      NearestIsFirstNearest(p, cs, n - 1);
    }
  }

  /** The first nearest centroid is unique: any label with that property is
      the one the scan finds. */
  lemma NearestIsUnique(p: Point, cs: seq<Point>, k: nat, l: int)
    requires k <= |cs|
    requires forall c :: 0 <= c < k ==> |p| <= |cs[c]|
    requires IsFirstNearest(p, cs, k, l)
    ensures l == Nearest(p, cs, k)
  {
    NearestIsFirstNearest(p, cs, k);
  }

  /** Every label of an assignment round names the first nearest centroid. */
  lemma AssignmentIsNearest(data: seq<Point>, cs: seq<Point>, k: nat)
    requires Comparable(data, cs, k) && k > 0
    ensures forall i :: 0 <= i < |data| ==> IsFirstNearest(data[i], cs, k, Assignment(data, cs, k)[i])
  {
    forall i | 0 <= i < |data|
      ensures IsFirstNearest(data[i], cs, k, Assignment(data, cs, k)[i])
    {
      NearestIsFirstNearest(data[i], cs, k);
    }
  }

  /** The labels are determined by the centroids: labels that give every point
      its first nearest centroid are exactly those of an assignment round, so
      assigning twice against the same centroids gives the same labels. */
  lemma AssignmentIsUnique(data: seq<Point>, cs: seq<Point>, k: nat, labels: seq<int>)
    requires Comparable(data, cs, k) && k > 0
    requires |labels| == |data|
    requires forall i :: 0 <= i < |data| ==> IsFirstNearest(data[i], cs, k, labels[i])
    ensures labels == Assignment(data, cs, k)
  {
    forall i | 0 <= i < |data|
      ensures labels[i] == Assignment(data, cs, k)[i]
    {
      NearestIsUnique(data[i], cs, k, labels[i]);
    }
  }

  /** Sum over the first n points of the squared distance from each point to
      the centroid its label names: the k-means objective. */
  function Cost(data: seq<Point>, cs: seq<Point>, k: nat, labels: seq<int>, n: nat): real
    requires Comparable(data, cs, k) && |labels| == |data| && LabelsInRange(labels, k)
    requires n <= |data|
  {
    if n == 0 then 0.0
    else Cost(data, cs, k, labels, n - 1) + SqDistance(data[n - 1], cs[labels[n - 1]])
  }

  lemma {:induction false} AssignmentMinimizesPrefixCost(data: seq<Point>, cs: seq<Point>, k: nat, other: seq<int>, n: nat)
    requires Comparable(data, cs, k) && k > 0
    requires |other| == |data| && LabelsInRange(other, k)
    requires n <= |data|
    ensures Cost(data, cs, k, Assignment(data, cs, k), n) <= Cost(data, cs, k, other, n)
  {
    if n > 0 {
      AssignmentMinimizesPrefixCost(data, cs, k, other, n - 1);
      NearestIsFirstNearest(data[n - 1], cs, k);
    }
  }

  /** No labelling of the points with clusters 0 .. k-1 has a smaller total
      squared distance to the given centroids than the assignment round's. */
  lemma AssignmentMinimizesCost(data: seq<Point>, cs: seq<Point>, k: nat, other: seq<int>)
    requires Comparable(data, cs, k) && k > 0
    requires |other| == |data| && LabelsInRange(other, k)
    ensures Cost(data, cs, k, Assignment(data, cs, k), |data|) <= Cost(data, cs, k, other, |data|)
  {
    AssignmentMinimizesPrefixCost(data, cs, k, other, |data|);
  }

  /** A point that coincides with one of the centroids is at distance zero
      from the centroid it is assigned to. */
  lemma PointOnCentroidIsAtZero(p: Point, cs: seq<Point>, k: nat, c: nat)
    requires c < k <= |cs|
    requires forall c' :: 0 <= c' < k ==> |p| == |cs[c']|
    requires cs[c] == p
    ensures SqDistance(p, cs[Nearest(p, cs, k)]) == 0.0
  {
    SqDistanceZeroIff(p, cs[c]);
    NearestIsFirstNearest(p, cs, k);
    SqDistanceNonNegative(p, cs[Nearest(p, cs, k)]);
  }

  lemma {:induction false} SingleMember(labels: seq<int>, c: int, t: nat, n: nat)
    requires n <= |labels|
    requires forall i :: 0 <= i < n ==> (labels[i] == c <==> i == t)
    ensures ClusterSize(labels, c, n) == if t < n then 1 else 0
  {
    if n > 0 {
      SingleMember(labels, c, t, n - 1);
    }
  }

  /** When the k centroids are the points at pairwise different positions
      indices[0 .. k-1], and no point occurs twice in the dataset, the point
      that centroid c was taken from is labelled c. */
  lemma OwnCentroidLabel(data: seq<Point>, indices: seq<int>, cs: seq<Point>, k: nat, c: nat)
    requires Uniform(data)
    requires IsPermutation(indices, |data|)
    requires forall i, j :: 0 <= i < j < |data| ==> data[i] != data[j]
    requires k <= |data| && |cs| == k && c < k
    requires forall c' :: 0 <= c' < k ==> cs[c'] == data[indices[c']]
    ensures Nearest(data[indices[c]], cs, k) == c
  {
    var n := k;
    var p := data[indices[c]];
    var r := Nearest(p, cs, n);
    PointOnCentroidIsAtZero(p, cs, n, c);
    SqDistanceZeroIff(p, cs[r]);
    assert data[indices[r]] == data[indices[c]];
    assert indices[r] == indices[c];
  }

  /** Labels that give position indices[c] the label c, for a permutation
      indices, put exactly one position in each cluster. */
  lemma OneMemberEach(labels: seq<int>, indices: seq<int>, c: nat)
    requires IsPermutation(indices, |labels|) && c < |labels|
    requires forall c' :: 0 <= c' < |labels| ==> labels[indices[c']] == c'
    ensures ClusterSize(labels, c, |labels|) == 1
  {
    var n := |labels|;
    PermutationCoversRange(indices, n);
    forall i | 0 <= i < n
      ensures labels[i] == c <==> i == indices[c]
    {
      assert i in indices;
      var c' :| 0 <= c' < n && indices[c'] == i;
      assert labels[i] == c';
    }
    SingleMember(labels, c, indices[c], n);
  }

  /** With as many clusters as points, and no point occurring twice, the first
      assignment against the initial centroids puts every point in a cluster
      of its own: the point at position indices[c] gets label c, and every
      cluster holds exactly one point. */
  lemma SingletonClusters(data: seq<Point>, indices: seq<int>)
    requires Uniform(data)
    requires IsPermutation(indices, |data|)
    requires forall i, j :: 0 <= i < j < |data| ==> data[i] != data[j]
    ensures Comparable(data, InitialCentroids(data, indices, |data|), |data|)
    ensures forall c :: 0 <= c < |data| ==>
      Assignment(data, InitialCentroids(data, indices, |data|), |data|)[indices[c]] == c
    ensures forall c :: 0 <= c < |data| ==>
      ClusterSize(Assignment(data, InitialCentroids(data, indices, |data|), |data|), c, |data|) == 1
  {
    var n := |data|;
    var cs := InitialCentroids(data, indices, n);
    var labels := Assignment(data, cs, n);
    forall c | 0 <= c < n
      ensures labels[indices[c]] == c
    {
      OwnCentroidLabel(data, indices, cs, n, c);
    }
    forall c | 0 <= c < n
      ensures ClusterSize(labels, c, n) == 1
    {
      OneMemberEach(labels, indices, c);
    }
  }

  // ---------------------------------------------------------------------
  // Update

  /** The size the update loop counts is the number of positions labelled c. */
  lemma {:induction false} ClusterSizeIsCount(labels: seq<int>, c: int, n: nat)
    requires n <= |labels|
    ensures ClusterSize(labels, c, n) == |set i | 0 <= i < n && labels[i] == c|
  {
    if n > 0 {
      ClusterSizeIsCount(labels, c, n - 1);
      var before := set i | 0 <= i < n - 1 && labels[i] == c;
      var after := set i | 0 <= i < n && labels[i] == c;
      if labels[n - 1] == c {
        assert after == before + {n - 1};
        assert n - 1 !in before;
      } else {
        assert after == before;
      }
    }
  }

  /** Sum of the sizes of clusters 0 .. m-1 over the first n labels. */
  function SizeTotal(labels: seq<int>, m: nat, n: nat): nat
    requires n <= |labels|
  {
    if m == 0 then 0 else SizeTotal(labels, m - 1, n) + ClusterSize(labels, m - 1, n)
  }

  lemma {:induction false} SizeTotalStep(labels: seq<int>, m: nat, n: nat)
    requires n < |labels|
    ensures SizeTotal(labels, m, n + 1) == SizeTotal(labels, m, n) + (if 0 <= labels[n] < m then 1 else 0)
  {
    if m > 0 {
      SizeTotalStep(labels, m - 1, n);
    }
  }

  lemma {:induction false} SizeTotalNone(labels: seq<int>, m: nat)
    ensures SizeTotal(labels, m, 0) == 0
  {
    if m > 0 {
      SizeTotalNone(labels, m - 1);
    }
  }

  lemma {:induction false} SizeTotalPrefix(labels: seq<int>, k: nat, n: nat)
    requires n <= |labels| && LabelsInRange(labels, k)
    ensures SizeTotal(labels, k, n) == n
  {
    if n == 0 {
      SizeTotalNone(labels, k);
    } else {
      SizeTotalPrefix(labels, k, n - 1);
      SizeTotalStep(labels, k, n - 1);
      assert SizeTotal(labels, k, (n - 1) + 1) == SizeTotal(labels, k, n - 1) + 1;
    }
  }

  /** When every label names one of the k clusters, the clusters partition the
      dataset: their sizes add up to the number of points. */
  lemma ClusterSizesPartition(labels: seq<int>, k: nat)
    requires LabelsInRange(labels, k)
    ensures SizeTotal(labels, k, |labels|) == |labels|
  {
    SizeTotalPrefix(labels, k, |labels|);
  }

  /** Coordinate j summed over the first n points. */
  function ColumnSum(data: seq<Point>, j: nat, n: nat): real
    requires n <= |data|
    requires forall i :: 0 <= i < n ==> j < |data[i]|
  {
    if n == 0 then 0.0 else ColumnSum(data, j, n - 1) + data[n - 1][j]
  }

  /** Sum over clusters 0 .. m-1 of coordinate j of each cluster's sum. */
  function SumTotal(data: seq<Point>, labels: seq<int>, j: nat, m: nat, n: nat): real
    requires n <= |data| && n <= |labels|
    requires forall i :: 0 <= i < n ==> j < |data[i]|
  {
    if m == 0 then 0.0 else SumTotal(data, labels, j, m - 1, n) + ClusterSum(data, labels, m - 1, j, n)
  }

  lemma {:induction false} SumTotalStep(data: seq<Point>, labels: seq<int>, j: nat, m: nat, n: nat)
    requires n < |data| && n < |labels|
    requires forall i :: 0 <= i <= n ==> j < |data[i]|
    ensures SumTotal(data, labels, j, m, n + 1) ==
      SumTotal(data, labels, j, m, n) + (if 0 <= labels[n] < m then data[n][j] else 0.0)
  {
    if m > 0 {
      SumTotalStep(data, labels, j, m - 1, n);
    }
  }

  lemma {:induction false} SumTotalNone(data: seq<Point>, labels: seq<int>, j: nat, m: nat)
    ensures SumTotal(data, labels, j, m, 0) == 0.0
  {
    if m > 0 {
      SumTotalNone(data, labels, j, m - 1);
    }
  }

  lemma {:induction false} SumTotalPrefix(data: seq<Point>, labels: seq<int>, k: nat, j: nat, n: nat)
    requires n <= |data| && n <= |labels| && LabelsInRange(labels, k)
    requires forall i :: 0 <= i < n ==> j < |data[i]|
    ensures SumTotal(data, labels, j, k, n) == ColumnSum(data, j, n)
  {
    if n == 0 {
      SumTotalNone(data, labels, j, k);
    } else {
      SumTotalPrefix(data, labels, k, j, n - 1);
      SumTotalStep(data, labels, j, k, n - 1);
      assert SumTotal(data, labels, j, k, (n - 1) + 1) == SumTotal(data, labels, j, k, n - 1) + data[n - 1][j];
    }
  }

  /** Splitting the dataset into clusters loses no mass: for every coordinate,
      the cluster sums add up to the sum over the whole dataset. */
  lemma ClusterSumsPartition(data: seq<Point>, labels: seq<int>, k: nat, j: nat)
    requires Uniform(data) && |labels| == |data| && LabelsInRange(labels, k)
    requires j < Dim(data)
    ensures SumTotal(data, labels, j, k, |data|) == ColumnSum(data, j, |data|)
  {
    SumTotalPrefix(data, labels, k, j, |data|);
  }

  /** The points among the first n whose label is c, in dataset order. */
  function Members(data: seq<Point>, labels: seq<int>, c: int, n: nat): (ms: seq<Point>)
    requires n <= |data| && n <= |labels|
    ensures |ms| <= n
    ensures Uniform(data) ==> HasDim(ms, Dim(data))
  {
    if n == 0 then []
    else Members(data, labels, c, n - 1) + (if labels[n - 1] == c then [data[n - 1]] else [])
  }

  /** A point is a member of cluster c exactly when some position labelled c holds it. */
  lemma {:induction false} MembersAreLabelled(data: seq<Point>, labels: seq<int>, c: int, n: nat, p: Point)
    requires n <= |data| && n <= |labels|
    ensures p in Members(data, labels, c, n) <==> exists i :: 0 <= i < n && labels[i] == c && data[i] == p
  {
    if n > 0 {
      MembersAreLabelled(data, labels, c, n - 1, p);
      var before := Members(data, labels, c, n - 1);
      if labels[n - 1] == c {
        assert Members(data, labels, c, n) == before + [data[n - 1]];
      } else {
        assert Members(data, labels, c, n) == before;
      }
    }
  }

  /** A column sum does not look past the positions it sums. */
  lemma {:induction false} ColumnSumAppend(ps: seq<Point>, q: Point, j: nat, n: nat)
    requires n <= |ps|
    requires forall i :: 0 <= i < n ==> j < |ps[i]|
    ensures ColumnSum(ps + [q], j, n) == ColumnSum(ps, j, n)
  {
    if n > 0 {
      ColumnSumAppend(ps, q, j, n - 1);
      assert (ps + [q])[n - 1] == ps[n - 1];
    }
  }

  /** The size and coordinate sums the update loop accumulates are the number
      and the column sum of the cluster's members. */
  lemma {:induction false} ClusterIsMembers(data: seq<Point>, labels: seq<int>, c: int, j: nat, n: nat)
    requires Uniform(data) && n <= |data| && n <= |labels| && j < Dim(data)
    ensures ClusterSize(labels, c, n) == |Members(data, labels, c, n)|
    ensures ClusterSum(data, labels, c, j, n)
      == ColumnSum(Members(data, labels, c, n), j, |Members(data, labels, c, n)|)
  {
    if n > 0 {
      ClusterIsMembers(data, labels, c, j, n - 1);
      var before := Members(data, labels, c, n - 1);
      if labels[n - 1] == c {
        assert Members(data, labels, c, n) == before + [data[n - 1]];
        ColumnSumAppend(before, data[n - 1], j, |before|);
        assert (before + [data[n - 1]])[|before|] == data[n - 1];
      } else {
        assert Members(data, labels, c, n) == before;
      }
    }
  }

  /** Each new centroid is the mean of its cluster: coordinate j of centroid c
      is the column sum of the points labelled c divided by their number. */
  lemma UpdatedCentroidIsMean(data: seq<Point>, labels: seq<int>, k: nat, c: nat, j: nat)
    requires Uniform(data) && |labels| == |data| && NoEmptyCluster(labels, k)
    requires c < k && j < Dim(data)
    ensures |Members(data, labels, c, |data|)| > 0
    ensures UpdatedCentroids(data, labels, k)[c][j]
      == ColumnSum(Members(data, labels, c, |data|), j, |Members(data, labels, c, |data|)|)
         / (|Members(data, labels, c, |data|)| as real)
  {
    ClusterIsMembers(data, labels, c, j, |data|);
  }

  /** Points without coordinates: every round from k > 0 comparable centroids
      can be carried out, empty clusters included, and yields k empty centroids. */
  lemma ZeroDimensionalRound(data: seq<Point>, k: nat, cs: seq<Point>)
    requires k > 0 && |data| > 0 && Comparable(data, cs, k) && Dim(data) == 0
    ensures RoundDefined(data, k, cs)
    ensures forall c :: 0 <= c < k ==> Round(data, k, cs)[c] == []
  {
  }

  // ---------------------------------------------------------------------
  // Rounds

  /** A run that is defined for m rounds is defined for every shorter one. */
  lemma {:induction false} NondegeneratePrefix(data: seq<Point>, k: nat, cs: seq<Point>, m: nat, n: nat)
    requires n <= m && NondegenerateRun(data, k, cs, m)
    ensures NondegenerateRun(data, k, cs, n)
    decreases m - n
  {
    if n < m {
      NondegeneratePrefix(data, k, cs, m - 1, n);
    }
  }

  /** Inside a run that is defined for m rounds, round n + 1 < m + 1 can be
      carried out and maps the centroids of n rounds to those of n + 1. */
  lemma NextRound(data: seq<Point>, k: nat, cs: seq<Point>, m: nat, n: nat)
    requires n < m && NondegenerateRun(data, k, cs, m)
    ensures NondegenerateRun(data, k, cs, n + 1)
    ensures RoundDefined(data, k, CentroidsAfter(data, k, cs, n))
    ensures CentroidsAfter(data, k, cs, n + 1) == Round(data, k, CentroidsAfter(data, k, cs, n))
  {
    NondegeneratePrefix(data, k, cs, m, n + 1);
  }

  /** Running m + n rounds is running m rounds and then n more from the
      centroids they reached. */
  lemma {:induction false} RoundsCompose(data: seq<Point>, k: nat, cs: seq<Point>, m: nat, n: nat)
    requires NondegenerateRun(data, k, cs, m + n)
    ensures NondegenerateRun(data, k, cs, m)
    ensures NondegenerateRun(data, k, CentroidsAfter(data, k, cs, m), n)
    ensures CentroidsAfter(data, k, cs, m + n) ==
      CentroidsAfter(data, k, CentroidsAfter(data, k, cs, m), n)
    decreases n
  {
    if n > 0 {
      RoundsCompose(data, k, cs, m, n - 1);
    }
  }

  /** Centroids that one round maps to themselves stay put: every number of
      rounds can be carried out from them and leaves them unchanged, and after
      at least one round the labels are their own assignment. */
  lemma {:induction false} FixedPointIsStable(data: seq<Point>, k: nat, cs: seq<Point>, labels0: seq<int>, n: nat)
    requires RoundDefined(data, k, cs) && Round(data, k, cs) == cs
    ensures NondegenerateRun(data, k, cs, n)
    ensures CentroidsAfter(data, k, cs, n) == cs
    ensures n > 0 ==> LabelsAfter(data, k, cs, labels0, n) == Assignment(data, cs, k)
    decreases n
  {
    if n > 0 {
      FixedPointIsStable(data, k, cs, labels0, n - 1);
    }
  }

  /** After at least one round the labels are those of an assignment against
      the centroids before the last update: every point carries the first
      nearest of those centroids, and no cluster is empty when the points have
      coordinates. */
  lemma RunLabels(data: seq<Point>, k: nat, cs: seq<Point>, labels0: seq<int>, n: nat)
    requires n > 0 && NondegenerateRun(data, k, cs, n)
    ensures Dim(data) > 0 ==> NoEmptyCluster(LabelsAfter(data, k, cs, labels0, n), k)
    ensures forall i :: 0 <= i < |data| ==>
      IsFirstNearest(data[i], CentroidsAfter(data, k, cs, n - 1), k, LabelsAfter(data, k, cs, labels0, n)[i])
  {
    AssignmentIsNearest(data, CentroidsAfter(data, k, cs, n - 1), k);
  }
}

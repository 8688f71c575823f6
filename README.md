# K-means clustering engine

This project models the `KMeans` class of `Kmeans.cpp` and proves properties
of the model. The class is a stateful engine. It owns a dataset of points, the
number of clusters `k`, a round count `max_iterations`, the current centroids
and the current label of every point. A run does two things:

- It picks `k` points of a shuffled index order as the initial centroids.
- It then performs exactly `max_iterations` rounds. Each round labels every
  point with the first centroid at minimum distance, then replaces every
  centroid by the coordinate-wise mean of its cluster.

Layout:

- `distance.dfy` (module `Distance`): points as `seq<real>` and the squared
  Euclidean distance, with its basic laws.
- `clustering.dfy` (module `Clustering`): the specification functions.
  - `Nearest` is the scan for one point; `Assignment` is one labelling round.
  - `ClusterSize` and `ClusterSum` are one cluster's count and coordinate sum.
  - `UpdatedCentroids` is the update step; `Round` is one round.
  - `CentroidsAfter` and `LabelsAfter` are the state after `n` rounds.
  - `NondegenerateRun` says that every one of those rounds has k > 0 clusters
    and at least one point, and meets no empty cluster when the points have
    coordinates.
- `clustering_lemmas.dfy` (module `ClusteringLemmas`): what these functions
  guarantee. This covers nearest-centroid and tie-breaking, the partition of
  the dataset by the clusters, centroids as means, minimality of the
  assignment's total distance, composition of rounds and fixed points.
- `kmeans.dfy` (module `KMeansEngine`): the class `KMeans`. It has the fields
  of the C++ class. Its methods use loops that mirror the `push_back` and
  accumulate loops of the source. Each method is proved against the functions
  above.

Differences from the code:

- The inner scan of `assignPointsToClusters` is the method `NearestCentroid`.
- The body of the loop in `runKMeans` is the method `AssignAndUpdate`.
- Both are factored out of the source's inline loops. Their contracts are
  what the enclosing loops rely on.
- `getCentroids` and `getLabels` only return the fields. The model reads the
  fields `centroids` and `labels` directly.

The final labels of a run are those that the last assignment computed against
the centroids before the last update. They are not those of the final
centroids. `LabelsAfter`, `RunKMeans` and `RunLabels` state it this way. The
final labels equal an assignment against the final centroids only at a fixed
point (see `FixedPointIsStable`).

## Model

| member | source | states |
|---|---|---|
| Distance.SqDistanceNonNegative | Kmeans.cpp:87-93 | the distance the assignment compares is never negative |
| Distance.SqDistanceSymmetric | Kmeans.cpp:87-93 | for points of equal dimension, the distance does not depend on the argument order |
| Distance.SqDistanceZeroIff | Kmeans.cpp:87-93 | two points of equal dimension are at distance zero exactly when they are equal |
| Clustering.Nearest | Kmeans.cpp:39-48 | the scan's result is -1 when there are no centroids, and otherwise the index of one of the examined centroids |
| Clustering.Assignment | Kmeans.cpp:36-52 | one label per point; with k = 0 every label is the initial -1; with k > 0 every label lies in [0, k) |
| Clustering.UpdatedCentroids | Kmeans.cpp:55-74 | the update yields exactly k centroids, each of the dataset's dimension |
| Clustering.Round | Kmeans.cpp:81-82 | one assign-then-update round yields k centroids of the dataset's dimension |
| Clustering.CentroidsAfter | Kmeans.cpp:80-83 | after at least one round there are k centroids of the dataset's dimension |
| Clustering.LabelsAfter | Kmeans.cpp:80-83 | before any round the labels are those held before the run; after at least one round there is one label per point, each in [0, k) |
| ClusteringLemmas.PermutationCoversRange | Kmeans.cpp:26-28 | a permutation of the positions 0 .. n-1 lists every one of them |
| ClusteringLemmas.InitialCentroidsAreDistinctPoints | Kmeans.cpp:30-32 | every initial centroid is a point of the dataset; when no point occurs twice, the initial centroids are pairwise different |
| ClusteringLemmas.NearestIsFirstNearest | Kmeans.cpp:42-47 | for n > 0 centroids, the scan's result is at minimum distance, and every lower index is strictly farther away (ties go to the lowest index) |
| ClusteringLemmas.NearestIsUnique | Kmeans.cpp:42-47 | any index that is first at minimum distance is the one the scan returns |
| ClusteringLemmas.AssignmentIsNearest | Kmeans.cpp:36-52 | every label of an assignment names the first nearest centroid of its point |
| ClusteringLemmas.AssignmentIsUnique | Kmeans.cpp:36-52 | labels that give every point its first nearest centroid are exactly the assignment, so assigning twice against the same centroids gives the same labels |
| ClusteringLemmas.AssignmentMinimizesCost | Kmeans.cpp:38-51 | no labelling with clusters in [0, k) has a smaller total squared distance to the centroids than the assignment |
| ClusteringLemmas.PointOnCentroidIsAtZero | Kmeans.cpp:42-47 | a point equal to one of the centroids is labelled with a centroid at distance zero |
| ClusteringLemmas.OwnCentroidLabel | Kmeans.cpp:30-47 | for any k <= the number of points: if the k centroids come from pairwise different positions and no point occurs twice, the point centroid c was taken from is labelled c |
| ClusteringLemmas.OneMemberEach | Kmeans.cpp:59-61 | if position indices[c] is labelled c for a permutation indices, each cluster has exactly one member |
| ClusteringLemmas.SingletonClusters | Kmeans.cpp:24-52 | with as many clusters as points and no point occurring twice, the first assignment gives point indices[c] the label c and every cluster exactly one member |
| ClusteringLemmas.ClusterSizeIsCount | Kmeans.cpp:59-61 | the counted cluster size equals the number of positions carrying that label |
| ClusteringLemmas.ClusterSizesPartition | Kmeans.cpp:57-65 | when every label lies in [0, k), the k cluster sizes add up to the number of points |
| ClusteringLemmas.ClusterSumsPartition | Kmeans.cpp:59-65 | for every coordinate, the k cluster sums add up to the sum over the whole dataset |
| ClusteringLemmas.MembersAreLabelled | Kmeans.cpp:59-61 | a point is among the members of cluster c exactly when some position labelled c holds it |
| ClusteringLemmas.ClusterIsMembers | Kmeans.cpp:57-65 | the accumulated cluster size is the number of the cluster's members, and the accumulated coordinate sum is the column sum over those members |
| ClusteringLemmas.UpdatedCentroidIsMean | Kmeans.cpp:55-71 | each cluster has members, and coordinate j of each new centroid is the column sum over the cluster's members divided by their number, i.e. their mean |
| ClusteringLemmas.ZeroDimensionalRound | Kmeans.cpp:55-74 | for points without coordinates no division is formed: a round is defined even with empty clusters and yields k empty centroids |
| ClusteringLemmas.NondegeneratePrefix | Kmeans.cpp:80 | a run that can be carried out for m rounds can be carried out for every shorter number of rounds |
| ClusteringLemmas.NextRound | Kmeans.cpp:80-83 | within a run of m rounds, round n + 1 can be carried out and maps the centroids after n rounds to those after n + 1 |
| ClusteringLemmas.RoundsCompose | Kmeans.cpp:80-83 | m + n rounds are m rounds followed by n more from the centroids reached |
| ClusteringLemmas.FixedPointIsStable | Kmeans.cpp:80-83 | centroids that one round maps to themselves stay put for any number of rounds, and after one round the labels are their assignment |
| ClusteringLemmas.RunLabels | Kmeans.cpp:80-83 | after n > 0 rounds every label is the first nearest of the centroids before the last update, and no cluster is empty when the points have coordinates, as `NondegenerateRun` requires of every round rather than as something the run brings about |
| KMeansEngine.KMeans.constructor | Kmeans.cpp:20-21 | stores k, max_iterations and the data; labels and centroids start empty |
| KMeansEngine.KMeans.InitializeCentroids | Kmeans.cpp:24-33 | discards the old centroids and leaves exactly k, centroid i being data[indices[i]]; labels are unchanged |
| KMeansEngine.KMeans.AssignPointsToClusters | Kmeans.cpp:36-52 | labels become the assignment: one per point, -1 when k = 0, otherwise the first nearest centroid; centroids are unchanged |
| KMeansEngine.KMeans.NearestCentroid | Kmeans.cpp:39-48 | the scan for one point returns the scan's specified result, Nearest |
| KMeansEngine.KMeans.UpdateCentroids | Kmeans.cpp:55-74 | centroids are replaced as a whole by the cluster sums divided by the cluster sizes; labels are unchanged |
| KMeansEngine.KMeans.AssignAndUpdate | Kmeans.cpp:81-82 | the labels become the assignment against the old centroids, and the centroids become the round's result |
| KMeansEngine.KMeans.RunKMeans | Kmeans.cpp:77-84 | initializes once, then performs exactly max_iterations rounds when that is positive and none otherwise: the centroids and labels are those after that many rounds from the initial centroids. With no rounds it leaves the initial centroids and the old labels. Otherwise the labels are in range; no cluster is empty when the points have coordinates, as `NondegenerateRun` requires of every round rather than as something the run brings about |
| KMeansEngine.KMeans.CalculateDistance | Kmeans.cpp:87-93 | the loop accumulates the squared coordinate differences over the first point's coordinates |

## Left out

- `main` (Kmeans.cpp:106-134) sets up example data and prints to the console. It is I/O and not modelled.
- `std::shuffle` with `default_random_engine{}` is not modelled. The index order is a parameter of `InitializeCentroids` and `RunKMeans`, which must be a permutation of the dataset's positions. The engine is default-seeded, so the source's order is in fact fixed; the model covers every order.
- Floating-point arithmetic, `pow` and `sqrt` are not modelled. Coordinates are exact reals.
- KMeansEngine.KMeans.CalculateDistance: returns the squared distance, not its square root. The square root is monotone on non-negative values, so every comparison, and hence every label, is the same.
- The `numeric_limits<double>::max()` starting distance becomes "no candidate seen yet" (label -1). With exact reals, the first centroid examined is always taken. A label of -1 with k > 0 cannot arise in the model.
- KMeansEngine.KMeans.UpdateCentroids: requires that no cluster is empty when the points have at least one coordinate. There the source divides a zero sum by a zero size and yields NaN coordinates; no recovery is modelled. `RunKMeans` requires the same of every round (`NondegenerateRun`). For points without coordinates the source forms no division, and the model admits empty clusters there too (`ZeroDimensionalRound`).
- KMeansEngine.KMeans.UpdateCentroids: requires at least one point and labels in [0, k). The source reads `data[0]` and indexes `cluster_sizes` by the label, which is undefined otherwise.
- KMeansEngine.KMeans.InitializeCentroids: requires k <= |data|. The source reads past the end of the index vector otherwise.
- KMeansEngine.KMeans.constructor: requires all points to have the same dimension. The source's loops walk `data[i].size()` and `data[0].size()` and index centroids with them. Ragged data can go out of range (a point longer than `data[0]` or than its centroid), though not every ragged input does; the model requires one dimension throughout.
- KMeansEngine.KMeans.constructor: `k` is a natural number. A negative `k` in the source makes `vector(k)` throw; that path is not modelled. `max_iterations` is any integer, and a non-positive value runs no round.
- The 32-bit `int` counters and sizes are unbounded integers.
- `getCentroids` and `getLabels` return references to the fields. The model's fields are read directly.

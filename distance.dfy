/** Points of the feature space and the distance used to compare them.

    The engine ranks centroids by Euclidean distance.  Since the square root is
    monotone on non-negative reals, ranking by the squared distance selects the
    same centroids, so the model works with the squared distance throughout. */
module Distance {

  /** A point is an ordered vector of real coordinates. */
  type Point = seq<real>

  function Sq(x: real): real { x * x }

  lemma MulSelfPositive(x: real)
    requires x > 0.0
    ensures x * x > 0.0
  {
  }

  /** A square is never negative, and it is positive away from zero. */
  lemma SqPositive(x: real)
    ensures Sq(x) >= 0.0
    ensures x != 0.0 ==> Sq(x) > 0.0
  {
    if x > 0.0 {
      calc {
        Sq(x);
        x * x;
      > { MulSelfPositive(x); }
        0.0;
      }
    } else if x < 0.0 {
      calc {
        Sq(x);
        (-x) * (-x);
      > { MulSelfPositive(-x); }
        0.0;
      }
    }
  }

  /** Sum of the squared coordinate differences over the first n coordinates
      of p, read left to right as the distance loop accumulates them. Only the
      coordinates of p are walked, so q may be longer than p. */
  function PartialSqDistance(p: Point, q: Point, n: nat): real
    requires n <= |p| <= |q|
  {
    if n == 0 then 0.0 else PartialSqDistance(p, q, n - 1) + Sq(p[n - 1] - q[n - 1])
  }

  /** The squared Euclidean distance between p and q, over the coordinates of p. */
  function SqDistance(p: Point, q: Point): real
    requires |p| <= |q|
  {
    PartialSqDistance(p, q, |p|)
  }

  lemma {:induction false} PartialSqDistanceNonNegative(p: Point, q: Point, n: nat)
    requires n <= |p| <= |q|
    ensures PartialSqDistance(p, q, n) >= 0.0
  {
    if n > 0 {
      PartialSqDistanceNonNegative(p, q, n - 1);
      SqPositive(p[n - 1] - q[n - 1]);
    }
  }

  /** A distance is never negative. */
  lemma SqDistanceNonNegative(p: Point, q: Point)
    requires |p| <= |q|
    ensures SqDistance(p, q) >= 0.0
  {
    PartialSqDistanceNonNegative(p, q, |p|);
  }

  lemma {:induction false} PartialSqDistanceSymmetric(p: Point, q: Point, n: nat)
    requires n <= |p| == |q|
    ensures PartialSqDistance(p, q, n) == PartialSqDistance(q, p, n)
  {
    if n > 0 {
      PartialSqDistanceSymmetric(p, q, n - 1);
      assert Sq(p[n - 1] - q[n - 1]) == Sq(q[n - 1] - p[n - 1]);
    }
  }

  /** The distance does not depend on the order of its arguments. */
  lemma SqDistanceSymmetric(p: Point, q: Point)
    requires |p| == |q|
    ensures SqDistance(p, q) == SqDistance(q, p)
  {
    PartialSqDistanceSymmetric(p, q, |p|);
  }

  lemma {:induction false} PartialSqDistanceZero(p: Point, q: Point, n: nat)
    requires n <= |p| <= |q|
    ensures PartialSqDistance(p, q, n) == 0.0 <==> forall i :: 0 <= i < n ==> p[i] == q[i]
  {
    if n > 0 {
      PartialSqDistanceZero(p, q, n - 1);
      PartialSqDistanceNonNegative(p, q, n - 1);
      SqPositive(p[n - 1] - q[n - 1]);
    }
  }

  /** Two points of the same dimension are at distance zero exactly when they
      are equal; in particular every point is at distance zero from itself. */
  lemma SqDistanceZeroIff(p: Point, q: Point)
    requires |p| == |q|
    ensures SqDistance(p, q) == 0.0 <==> p == q
  {
    PartialSqDistanceZero(p, q, |p|);
    if SqDistance(p, q) == 0.0 {
      assert forall i :: 0 <= i < |p| ==> p[i] == q[i];
    }
  }
}

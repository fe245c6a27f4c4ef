/**
 * The numeric helpers shared by the server and the client (shared/Util.js):
 * sign, linear scaling, summation, the two point distances, the range test
 * and clamping. Numbers are exact reals; points are sequences of reals.
 */
module Util {
  import opened Wrappers

  /** Math.abs */
  function Abs(x: real): (r: real)
    ensures r >= 0.0 && (r == x || r == -x)
  {
    if x < 0.0 then -x else x
  }

  /** Math.min and Math.max on two numbers. */
  function Min(a: real, b: real): (r: real)
    ensures r <= a && r <= b && (r == a || r == b)
  {
    if a <= b then a else b
  }

  function Max(a: real, b: real): (r: real)
    ensures r >= a && r >= b && (r == a || r == b)
  {
    if a >= b then a else b
  }

  /** The sign of `x`: exactly one of 1, -1 and 0, according to the sign of `x`. */
  function GetSign(x: real): (s: int)
    ensures s == 1 <==> x > 0.0
    ensures s == -1 <==> x < 0.0
    ensures s == 0 <==> x == 0.0
    ensures (s as real) * x == Abs(x)
  {
    if x > 0.0 then 1
    else if x < 0.0 then -1
    else 0
  }

  /**
   * Maps `x` from the range a1..a2 onto the range b1..b2 by the affine map
   * that sends a1 to b1 and a2 to b2. It divides by a2 - a1.
   */
  function LinearScale(x: real, a1: real, a2: real, b1: real, b2: real): (r: real)
    requires a1 != a2
    ensures (r - b1) * (a2 - a1) == (x - a1) * (b2 - b1)
    ensures x == a1 ==> r == b1
    ensures x == a2 ==> r == b2
  {
    var q := (x - a1) * (b2 - b1);
    assert q / (a2 - a1) * (a2 - a1) == q;
    assert x == a1 ==> q == 0.0;
    assert x == a2 ==> q / (a2 - a1) == (b2 - b1) * ((a2 - a1) / (a2 - a1));
    (q / (a2 - a1)) + b1
  }

  /** Scaling back from b1..b2 to a1..a2 undoes a scaling from a1..a2 to b1..b2. */
  lemma LinearScaleInverse(x: real, a1: real, a2: real, b1: real, b2: real)
    requires a1 != a2 && b1 != b2
    ensures LinearScale(LinearScale(x, a1, a2, b1, b2), b1, b2, a1, a2) == x
  {
    var y := LinearScale(x, a1, a2, b1, b2);
    var t := (x - a1) / (a2 - a1);
    assert y - b1 == t * (b2 - b1);
    assert (y - b1) * (a2 - a1) / (b2 - b1) == t * (a2 - a1);
    assert t * (a2 - a1) == x - a1;
  }

  /** The reference sum: 0 for the empty sequence, else the head plus the sum of the rest. */
  function Total(s: seq<real>): real
  {
    if s == [] then 0.0 else s[0] + Total(s[1..])
  }

  /** Array.prototype.reduce with `+`: a left fold starting from the accumulator. */
  function Reduce(acc: real, s: seq<real>): real
    decreases |s|
  {
    if s == [] then acc else Reduce(acc + s[0], s[1..])
  }

  lemma {:induction false} ReduceIsTotal(acc: real, s: seq<real>)
    ensures Reduce(acc, s) == acc + Total(s)
    decreases |s|
  {
    if s != [] {
      ReduceIsTotal(acc + s[0], s[1..]);
    }
  }

  /**
   * The sum of an array. `reduce` is called with no initial value, so an
   * empty array throws instead of summing to 0.
   */
  function Sum(s: seq<real>): (r: Result<real>)
    ensures s == [] <==> r == Failure(ReduceOfEmptyArray)
    ensures s != [] ==> r == Success(Total(s))
  {
    if s == [] then Failure(ReduceOfEmptyArray)
    else
      ReduceIsTotal(s[0], s[1..]);
      Success(Reduce(s[0], s[1..]))
  }

  /** A sum of non-negative terms is non-negative, and is zero exactly when every term is. */
  lemma {:induction false} TotalOfNonNegatives(s: seq<real>)
    requires forall i :: 0 <= i < |s| ==> s[i] >= 0.0
    ensures Total(s) >= 0.0
    ensures Total(s) == 0.0 <==> forall i :: 0 <= i < |s| ==> s[i] == 0.0
  {
    if s != [] {
      TotalOfNonNegatives(s[1..]);
      assert forall i :: 1 <= i < |s| ==> s[i] == s[1..][i - 1];
    }
  }

  /** The per-axis terms of the Manhattan distance. */
  function AbsDifferences(p1: seq<real>, p2: seq<real>): (d: seq<real>)
    requires |p1| == |p2|
    ensures |d| == |p1|
    ensures forall i :: 0 <= i < |d| ==> d[i] == Abs(p1[i] - p2[i])
  {
    seq(|p1|, i requires 0 <= i < |p1| => Abs(p1[i] - p2[i]))
  }

  /** The per-axis terms of the squared Euclidean distance. */
  function SquaredDifferences(p1: seq<real>, p2: seq<real>): (d: seq<real>)
    requires |p1| == |p2|
    ensures |d| == |p1|
    ensures forall i :: 0 <= i < |d| ==> d[i] == Square(p1[i] - p2[i])
  {
    seq(|p1|, i requires 0 <= i < |p1| => (p1[i] - p2[i]) * (p1[i] - p2[i]))
  }

  function Square(x: real): real
  {
    x * x
  }

  /** A square is non-negative, and positive away from zero. */
  lemma SquareNonNegative(x: real)
    ensures Square(x) >= 0.0
    ensures x != 0.0 ==> Square(x) > 0.0
  {
    if x > 0.0 {
      calc {
        Square(x);
      ==
        x * x;
      >
        0.0;
      }
    } else if x < 0.0 {
      calc {
        Square(x);
      ==
        (-x) * (-x);
      >
        0.0;
      }
    }
  }

  /**
   * The Manhattan distance between two points. Points of different lengths
   * are an error; two empty points are an error too, because the sum of no
   * terms throws. Otherwise the distance is the sum of the absolute
   * differences per axis, which is non-negative and zero exactly when the
   * points are equal.
   */
  function ManhattanDistance(p1: seq<real>, p2: seq<real>): (r: Result<real>)
    ensures |p1| != |p2| ==> r == Failure(DistanceMismatch)
    ensures |p1| == |p2| && p1 == [] ==> r == Failure(ReduceOfEmptyArray)
    ensures |p1| == |p2| && p1 != [] ==> r == Success(Total(AbsDifferences(p1, p2)))
    ensures |p1| == |p2| && p1 != [] ==> r.value >= 0.0
    ensures |p1| == |p2| && p1 != [] ==> (r.value == 0.0 <==> p1 == p2)
  {
    if |p1| != |p2| then Failure(DistanceMismatch)
    else
      var d := AbsDifferences(p1, p2);
      TotalOfNonNegatives(d);
      assert (forall i :: 0 <= i < |d| ==> d[i] == 0.0) <==> p1 == p2 by {
        if forall i :: 0 <= i < |d| ==> d[i] == 0.0 {
          assert forall i :: 0 <= i < |p1| ==> p1[i] == p2[i] by {
            forall i | 0 <= i < |p1| ensures p1[i] == p2[i] {
              assert d[i] == 0.0;
            }
          }
        }
      }
      Sum(d)
  }

  /**
   * The squared Euclidean distance between two points, with the same error
   * cases as ManhattanDistance; otherwise the sum of the squared differences
   * per axis, which is non-negative and zero exactly when the points are
   * equal.
   */
  function EuclideanDistance2(p1: seq<real>, p2: seq<real>): (r: Result<real>)
    ensures |p1| != |p2| ==> r == Failure(DistanceMismatch)
    ensures |p1| == |p2| && p1 == [] ==> r == Failure(ReduceOfEmptyArray)
    ensures |p1| == |p2| && p1 != [] ==> r == Success(Total(SquaredDifferences(p1, p2)))
    ensures |p1| == |p2| && p1 != [] ==> r.value >= 0.0
    ensures |p1| == |p2| && p1 != [] ==> (r.value == 0.0 <==> p1 == p2)
  {
    if |p1| != |p2| then Failure(DistanceMismatch)
    else
      var d := SquaredDifferences(p1, p2);
      forall i | 0 <= i < |d| ensures d[i] >= 0.0 && (d[i] == 0.0 <==> p1[i] == p2[i]) {
        SquareNonNegative(p1[i] - p2[i]);
      }
      TotalOfNonNegatives(d);
      assert (forall i :: 0 <= i < |d| ==> d[i] == 0.0) <==> p1 == p2 by {
        if forall i :: 0 <= i < |d| ==> d[i] == 0.0 {
          assert forall i :: 0 <= i < |p1| ==> p1[i] == p2[i];
        }
      }
      Sum(d)
  }

  /** Both distances give the same answer with the points swapped. */
  lemma DistancesSymmetric(p1: seq<real>, p2: seq<real>)
    ensures ManhattanDistance(p1, p2) == ManhattanDistance(p2, p1)
    ensures EuclideanDistance2(p1, p2) == EuclideanDistance2(p2, p1)
  {
    if |p1| == |p2| {
      assert AbsDifferences(p1, p2) == AbsDifferences(p2, p1);
      assert SquaredDifferences(p1, p2) == SquaredDifferences(p2, p1);
    }
  }

  /** The squared Euclidean distance between two points of the plane, written out. */
  lemma EuclideanDistance2Plane(p1: seq<real>, p2: seq<real>)
    requires |p1| == |p2| == 2
    ensures EuclideanDistance2(p1, p2)
         == Success(Square(p1[0] - p2[0]) + Square(p1[1] - p2[1]))
  {
    var d := SquaredDifferences(p1, p2);
    assert d[1..][0] == d[1] && d[1..][1..] == [];
    assert Total(d[1..]) == d[1];
    assert Total(d) == d[0] + d[1];
  }

  /** The squared Euclidean distance between two points of space, written out. */
  lemma EuclideanDistance2Space(p1: seq<real>, p2: seq<real>)
    requires |p1| == |p2| == 3
    ensures EuclideanDistance2(p1, p2)
         == Success(Square(p1[0] - p2[0]) + Square(p1[1] - p2[1]) + Square(p1[2] - p2[2]))
  {
    var d := SquaredDifferences(p1, p2);
    assert d[1..][0] == d[1] && d[1..][1..][0] == d[2] && d[1..][1..][1..] == [];
    assert Total(d[1..][1..]) == d[2];
    assert Total(d[1..]) == d[1] + d[2];
    assert Total(d) == d[0] + (d[1] + d[2]);
  }

  /**
   * Whether `val` lies between `min` and `max`, both ends included, where
   * the two bounds may come in either order.
   */
  function InBound(val: real, min: real, max: real): (b: bool)
    ensures b <==> Min(min, max) <= val <= Max(min, max)
  {
    if min > max then val >= max && val <= min
    else val >= min && val <= max
  }

  /** Swapping the bounds does not change the range test. */
  lemma InBoundSwapped(val: real, min: real, max: real)
    ensures InBound(val, min, max) == InBound(val, max, min)
  {
  }

  /**
   * Clamps `val` into the closed range between `min` and `max`, the bounds in
   * either order: a value inside is returned unchanged, a value below or above
   * becomes the nearer end.
   */
  function Bound(val: real, min: real, max: real): (r: real)
    ensures InBound(r, min, max)
    ensures InBound(val, min, max) ==> r == val
    ensures val < Min(min, max) ==> r == Min(min, max)
    ensures val > Max(min, max) ==> r == Max(min, max)
  {
    if min > max then Min(Max(val, max), min)
    else Min(Max(val, min), max)
  }

  /** Clamping twice is clamping once, and the order of the bounds does not matter. */
  lemma BoundIdempotent(val: real, min: real, max: real)
    ensures Bound(Bound(val, min, max), min, max) == Bound(val, min, max)
    ensures Bound(val, min, max) == Bound(val, max, min)
  {
  }
}

/**
 * The adaptive quick hull of polygon.py: _adaptive_quick_hull splits the
 * points by the line from the leftmost to the rightmost point into two
 * sets, and _ahull_partition_points builds each sub-hull, partitioning by
 * the furthest point again while that culls enough points and finishing
 * with the sorted chain scan of _ahull_sort_points otherwise.  The sub-hull
 * a call appends to the shared hull list is its result here.
 */
module PyHull {
  import opened Wrappers
  import opened Planar
  import CHull

  // ---------------------------------------------------------------
  // Barycentric signs
  // ---------------------------------------------------------------

  /** The cross product of two vectors. */
  function Cross(a: Vec2, b: Vec2): real { a.x * b.y - a.y * b.x }

  /** In the plane, (a.c)(b.d) - (a.d)(b.c) is the product of the cross products a x b and c x d. */
  lemma BinetCauchy(a: Vec2, b: Vec2, c: Vec2, d: Vec2)
    ensures CHull.Dot(a, c) * CHull.Dot(b, d) - CHull.Dot(a, d) * CHull.Dot(b, c) == Cross(a, b) * Cross(c, d)
  {
  }

  lemma ProductSign(s: real, x: real)
    requires s > 0.0
    ensures s * x < 0.0 ==> x < 0.0
    ensures s * x > 0.0 ==> x > 0.0
    ensures x > 0.0 ==> s * x > 0.0
  {
    if x > 0.0 {
      assert s * x > 0.0;
    }
    if x >= 0.0 {
      assert s * x >= 0.0;
    }
    if x <= 0.0 {
      assert s * x <= 0.0;
    }
  }

  /** The triangle's denominator is the square of pp's distance from the line p0 -> p1. */
  lemma DenomSquare(p0: Vec2, p1: Vec2, pp: Vec2)
    ensures CHull.Denom(p0, p1, pp) == Side(p0, p1, pp) * Side(p0, p1, pp)
  {
    var a, b := Sub(p0, pp), Sub(p1, pp);
    BinetCauchy(a, b, a, b);
    assert Cross(a, b) == Side(p0, p1, pp);
  }

  lemma DenomPositive(p0: Vec2, p1: Vec2, pp: Vec2)
    requires Side(p0, p1, pp) > 0.0
    ensures CHull.Denom(p0, p1, pp) > 0.0
  {
    var a, b := Sub(p0, pp), Sub(p1, pp);
    BinetCauchy(a, b, a, b);
    var c := Cross(a, b);
    assert c == Side(p0, p1, pp);
    assert CHull.Dot(b, a) == CHull.Dot(a, b);
    assert CHull.Denom(p0, p1, pp) == c * c;
    ProductPositive(CHull.Denom(p0, p1, pp), c, c);
  }

  lemma ProductPositive(d: real, s: real, t: real)
    requires s > 0.0 && t > 0.0 && d == s * t
    ensures d > 0.0
  {
  }

  /**
   * With pp strictly left of p0 -> p1, a point sent to the left set is
   * strictly left of p0 -> pp, and one sent to the right set strictly
   * left of pp -> p1: the sets keep the invariant the next partitions need.
   */
  lemma OutsideSides(p0: Vec2, p1: Vec2, pp: Vec2, q: Vec2)
    requires Side(p0, p1, pp) > 0.0
    ensures CHull.InLeftSet(p0, p1, pp, q) ==> Side(p0, pp, q) > 0.0
    ensures CHull.InRightSet(p0, p1, pp, q) ==> Side(pp, p1, q) > 0.0
  {
    var a, b, c := Sub(p0, pp), Sub(p1, pp), Sub(q, pp);
    var s := Side(p0, p1, pp);
    DenomPositive(p0, p1, pp);
    var den := CHull.Denom(p0, p1, pp);
    var inv := 1.0 / den;
    assert inv > 0.0;
    assert Cross(a, b) == s;
    BinetCauchy(a, b, a, c);
    BinetCauchy(b, a, b, c);
    var nv := CHull.Dot(a, a) * CHull.Dot(b, c) - CHull.Dot(a, b) * CHull.Dot(a, c);
    var nu := CHull.Dot(b, b) * CHull.Dot(a, c) - CHull.Dot(a, b) * CHull.Dot(b, c);
    assert nv == s * Cross(a, c);
    assert nu == -s * Cross(b, c);
    assert CHull.BaryV(p0, p1, pp, q, inv) == nv * inv;
    assert CHull.BaryU(p0, p1, pp, q, inv) == nu * inv;
    ProductSign(inv, nv);
    ProductSign(inv, nu);
    ProductSign(s, Cross(a, c));
    ProductSign(s, -Cross(b, c));
    assert Side(p0, pp, q) == -Cross(a, c);
    assert Side(pp, p1, q) == Cross(b, c);
  }

  /** The partition point itself goes to neither set. */
  lemma PartitionPointOutsideNeither(p0: Vec2, p1: Vec2, pp: Vec2)
    ensures !CHull.InLeftSet(p0, p1, pp, pp) && !CHull.InRightSet(p0, p1, pp, pp)
  {
    if CHull.Denom(p0, p1, pp) != 0.0 {
      CHull.PartitionPointCulled(p0, p1, pp, 1.0 / CHull.Denom(p0, p1, pp));
    }
  }

  // ---------------------------------------------------------------
  // The extremes and the two sets
  // ---------------------------------------------------------------

  /** The first point of least x. */
  function FirstLeastX(points: seq<Vec2>): (p: Vec2)
    requires |points| >= 1
    ensures p in points && forall q :: q in points ==> p.x <= q.x
  {
    if |points| == 1 then points[0]
    else
      var r := FirstLeastX(points[..|points| - 1]);
      assert points == points[..|points| - 1] + [points[|points| - 1]];
      if points[|points| - 1].x < r.x then points[|points| - 1] else r
  }

  /** The first point of greatest x. */
  function FirstGreatestX(points: seq<Vec2>): (p: Vec2)
    requires |points| >= 1
    ensures p in points && forall q :: q in points ==> q.x <= p.x
  {
    if |points| == 1 then points[0]
    else
      var r := FirstGreatestX(points[..|points| - 1]);
      assert points == points[..|points| - 1] + [points[|points| - 1]];
      if points[|points| - 1].x > r.x then points[|points| - 1] else r
  }

  lemma ExtremesStep(points: seq<Vec2>, i: nat)
    requires 1 <= i < |points|
    ensures var l, r := FirstLeastX(points[..i]), FirstGreatestX(points[..i]);
      l.x <= r.x &&
      FirstLeastX(points[..i + 1]) == (if points[i].x < l.x then points[i] else l) &&
      FirstGreatestX(points[..i + 1]) == (if points[i].x > r.x then points[i] else r)
  {
    var q := points[..i + 1];
    assert q[..|q| - 1] == points[..i] && q[|q| - 1] == points[i];
    var l := FirstLeastX(points[..i]);
    assert l in points[..i];
    assert l.x <= FirstGreatestX(points[..i]).x;
  }

  /**
   * The leftmost and rightmost scan: both start at points[0]; a point
   * strictly left of the leftmost replaces it, otherwise one strictly
   * right of the rightmost replaces that.
   */
  method FindExtremes(points: seq<Vec2>) returns (leftmost: Vec2, rightmost: Vec2)
    requires |points| >= 1
    ensures leftmost == FirstLeastX(points) && rightmost == FirstGreatestX(points)
  {
    leftmost, rightmost := points[0], points[0];
    var i := 1;
    while i < |points|
      invariant 1 <= i <= |points|
      invariant leftmost == FirstLeastX(points[..i]) && rightmost == FirstGreatestX(points[..i])
    {
      ExtremesStep(points, i);
      var p := points[i];
      if p.x < leftmost.x {
        leftmost := p;
      } else if p.x > rightmost.x {
        rightmost := p;
      }
      i := i + 1;
    }
    assert points[..i] == points;
  }

  /** The points strictly left of the line a -> b, without a and b. */
  function UpperSet(points: seq<Vec2>, a: Vec2, b: Vec2): set<Vec2> {
    (set q | q in points && Side(a, b, q) > 0.0) - {a, b}
  }

  /** The points on or right of the line a -> b, without a and b. */
  function LowerSet(points: seq<Vec2>, a: Vec2, b: Vec2): set<Vec2> {
    (set q | q in points && Side(a, b, q) <= 0.0) - {a, b}
  }

  /** The loop filling upper_points and lower_points, then the four discards. */
  method SplitSets(points: seq<Vec2>, leftmost: Vec2, rightmost: Vec2) returns (upper: set<Vec2>, lower: set<Vec2>)
    ensures upper == UpperSet(points, leftmost, rightmost)
    ensures lower == LowerSet(points, leftmost, rightmost)
  {
    upper, lower := {}, {};
    var i := 0;
    while i < |points|
      invariant 0 <= i <= |points|
      invariant upper == set q | q in points[..i] && Side(leftmost, rightmost, q) > 0.0
      invariant lower == set q | q in points[..i] && Side(leftmost, rightmost, q) <= 0.0
    {
      assert points[..i + 1] == points[..i] + [points[i]];
      var p := points[i];
      if Side(leftmost, rightmost, p) > 0.0 {
        upper := upper + {p};
      } else {
        lower := lower + {p};
      }
      i := i + 1;
    }
    assert points[..i] == points;
    upper := upper - {leftmost} - {rightmost};
    lower := lower - {leftmost} - {rightmost};
  }

  /**
   * Iterating a set: the order is not specified, so any order of its
   * elements may come out, each once.
   */
  method SetToList(s: set<Vec2>) returns (xs: seq<Vec2>)
    ensures |xs| == |s| && forall q :: q in xs <==> q in s
  {
    xs := [];
    var rest := s;
    while rest != {}
      invariant rest <= s
      invariant forall q :: q in xs <==> q in s && q !in rest
      invariant |xs| + |rest| == |s|
      decreases |rest|
    {
      var q :| q in rest;
      assert rest == (rest - {q}) + {q};
      xs := xs + [q];
      rest := rest - {q};
    }
  }

  // ---------------------------------------------------------------
  // _ahull_partition_points
  // ---------------------------------------------------------------

  /**
   * The furthest-point loop: the first point whose distance (SIDE from
   * p0 -> p1) beats the best so far, starting from -1; none when no point
   * beats -1, where the source would read an unbound name.
   */
  method Furthest(points: seq<Vec2>, p0: Vec2, p1: Vec2) returns (pp: Option<Vec2>)
    ensures pp.None? <==> forall k :: 0 <= k < |points| ==> Side(p0, p1, points[k]) <= -1.0
    ensures pp.Some? ==> (pp.value in points &&
      forall k :: 0 <= k < |points| ==> Side(p0, p1, points[k]) <= Side(p0, p1, pp.value))
    ensures pp.Some? ==> exists i :: (0 <= i < |points| && points[i] == pp.value && Side(p0, p1, points[i]) > -1.0 &&
      forall k :: 0 <= k < i ==> Side(p0, p1, points[k]) < Side(p0, p1, points[i]))
  {
    var furthest := -1.0;
    pp := None;
    ghost var at := 0;
    var i := 0;
    while i < |points|
      invariant 0 <= i <= |points|
      invariant pp.None? <==> forall k :: 0 <= k < i ==> Side(p0, p1, points[k]) <= -1.0
      invariant pp.None? ==> furthest == -1.0
      invariant pp.Some? ==> at < i && points[at] == pp.value && furthest == Side(p0, p1, pp.value) && furthest > -1.0
      invariant pp.Some? ==> forall k :: 0 <= k < at ==> Side(p0, p1, points[k]) < furthest
      invariant forall k :: 0 <= k < i ==> Side(p0, p1, points[k]) <= furthest
    {
      var dist := Side(p0, p1, points[i]);
      if dist > furthest {
        furthest := dist;
        pp := Some(points[i]);
        at := i;
      }
      i := i + 1;
    }
  }

  /** The points of a list outside the triangle across the edge pp -> p0 (left) or pp -> p1 (right), in order. */
  function Outside(points: seq<Vec2>, p0: Vec2, p1: Vec2, pp: Vec2, leftSide: bool): (r: seq<Vec2>)
    ensures |r| <= |points|
    ensures forall q :: q in r ==> q in points
    ensures forall q :: q in r ==> if leftSide then CHull.InLeftSet(p0, p1, pp, q) else CHull.InRightSet(p0, p1, pp, q)
  {
    if points == [] then []
    else
      var q := points[|points| - 1];
      var r := Outside(points[..|points| - 1], p0, p1, pp, leftSide);
      if (if leftSide then CHull.InLeftSet(p0, p1, pp, q) else CHull.InRightSet(p0, p1, pp, q)) then r + [q] else r
  }

  /** The partition point is culled, so each set is shorter than the list it came from. */
  lemma {:induction false} OutsideShorter(points: seq<Vec2>, p0: Vec2, p1: Vec2, pp: Vec2, leftSide: bool)
    requires pp in points
    ensures |Outside(points, p0, p1, pp, leftSide)| < |points|
    decreases |points|
  {
    var q := points[|points| - 1];
    var init := points[..|points| - 1];
    PartitionPointOutsideNeither(p0, p1, pp);
    if q != pp {
      assert points == init + [q];
      assert pp in init;
      OutsideShorter(init, p0, p1, pp, leftSide);
    }
  }

  /**
   * The barycentric loop: with a triangle of non-zero area, points of
   * negative v go to the left list and the others of negative u to the
   * right list; a triangle without area puts nothing in either.
   */
  method SplitByTriangle(points: seq<Vec2>, p0: Vec2, p1: Vec2, pp: Vec2) returns (left: seq<Vec2>, right: seq<Vec2>)
    ensures left == Outside(points, p0, p1, pp, true)
    ensures right == Outside(points, p0, p1, pp, false)
  {
    left, right := [], [];
    var denom := CHull.Denom(p0, p1, pp);
    if denom != 0.0 {
      var invDenom := 1.0 / denom;
      var i := 0;
      while i < |points|
        invariant 0 <= i <= |points|
        invariant left == Outside(points[..i], p0, p1, pp, true)
        invariant right == Outside(points[..i], p0, p1, pp, false)
      {
        assert points[..i + 1][..i] == points[..i];
        var p := points[i];
        var u := CHull.BaryU(p0, p1, pp, p, invDenom);
        var v := CHull.BaryV(p0, p1, pp, p, invDenom);
        if v < 0.0 {
          left := left + [p];
        } else if u < 0.0 {
          right := right + [p];
        }
        i := i + 1;
      }
      assert points[..i] == points;
    } else {
      NothingOutside(points, p0, p1, pp);
    }
  }

  lemma {:induction false} NothingOutside(points: seq<Vec2>, p0: Vec2, p1: Vec2, pp: Vec2)
    requires CHull.Denom(p0, p1, pp) == 0.0
    ensures Outside(points, p0, p1, pp, true) == [] && Outside(points, p0, p1, pp, false) == []
    decreases |points|
  {
    if points != [] {
      NothingOutside(points[..|points| - 1], p0, p1, pp);
    }
  }

  // ---------------------------------------------------------------
  // _ahull_sort_points
  // ---------------------------------------------------------------

  /** line_order: the projection of pt - p0 on the direction p0 -> p1. */
  function LineOrder(p0: Vec2, p1: Vec2, pt: Vec2): real {
    (p1.x - p0.x) * (pt.x - p0.x) + (p1.y - p0.y) * (pt.y - p0.y)
  }

  /** x inserted before the first element of the same or larger line order. */
  function InsertByOrder(x: Vec2, xs: seq<Vec2>, p0: Vec2, p1: Vec2): (r: seq<Vec2>)
    ensures multiset(r) == multiset(xs) + multiset{x}
    decreases |xs|
  {
    if xs == [] || LineOrder(p0, p1, x) <= LineOrder(p0, p1, xs[0]) then [x] + xs
    else
      assert xs == [xs[0]] + xs[1..];
      [xs[0]] + InsertByOrder(x, xs[1..], p0, p1)
  }

  /**
   * list.sort(key=line_order), written as an insertion sort that is
   * stable like it: each point is inserted in front of the later points of
   * the same order.
   */
  function SortByOrder(xs: seq<Vec2>, p0: Vec2, p1: Vec2): (r: seq<Vec2>)
    ensures multiset(r) == multiset(xs)
    decreases |xs|
  {
    if xs == [] then []
    else
      assert xs == [xs[0]] + xs[1..];
      InsertByOrder(xs[0], SortByOrder(xs[1..], p0, p1), p0, p1)
  }

  ghost predicate SortedByOrder(xs: seq<Vec2>, p0: Vec2, p1: Vec2) {
    forall i, j :: 0 <= i < j < |xs| ==> LineOrder(p0, p1, xs[i]) <= LineOrder(p0, p1, xs[j])
  }

  lemma {:induction false} InsertSorted(x: Vec2, xs: seq<Vec2>, p0: Vec2, p1: Vec2)
    requires SortedByOrder(xs, p0, p1)
    ensures SortedByOrder(InsertByOrder(x, xs, p0, p1), p0, p1)
    decreases |xs|
  {
    if xs != [] && LineOrder(p0, p1, x) > LineOrder(p0, p1, xs[0]) {
      InsertSorted(x, xs[1..], p0, p1);
      var t := InsertByOrder(x, xs[1..], p0, p1);
      forall i | 0 <= i < |t| ensures LineOrder(p0, p1, xs[0]) <= LineOrder(p0, p1, t[i]) {
        assert t[i] in multiset(t);
        if t[i] != x {
          assert t[i] in multiset(xs[1..]);
          var j :| 0 <= j < |xs[1..]| && xs[1..][j] == t[i];
          assert xs[j + 1] == t[i];
        }
      }
      assert InsertByOrder(x, xs, p0, p1) == [xs[0]] + t;
    }
  }

  /** The sort orders the points by line order. */
  lemma {:induction false} SortByOrderSorted(xs: seq<Vec2>, p0: Vec2, p1: Vec2)
    ensures SortedByOrder(SortByOrder(xs, p0, p1), p0, p1)
    decreases |xs|
  {
    if xs != [] {
      SortByOrderSorted(xs[1..], p0, p1);
      InsertSorted(xs[0], SortByOrder(xs[1..], p0, p1), p0, p1);
    }
  }

  /** Every consecutive triple of a chain turns strictly right. */
  ghost predicate RightTurns(chain: seq<Vec2>) {
    forall i :: 0 <= i < |chain| - 2 ==> Side(chain[i], chain[i + 1], chain[i + 2]) < 0.0
  }

  /**
   * The chain scan: the points sorted by line order and then p1 are
   * pushed on a stack from p0, first popping the top while it does not
   * make a strict right turn with the new point; p1 is popped at the end.
   * The chain starts at p0, takes its other points from the list, and
   * followed by p1 turns strictly right at every vertex.
   */
  method SortPoints(points: seq<Vec2>, p0: Vec2, p1: Vec2) returns (chain: seq<Vec2>)
    ensures |chain| >= 1 && chain[0] == p0
    ensures forall q :: q in chain ==> q == p0 || q in points
    ensures RightTurns(chain + [p1])
  {
    var sorted := SortByOrder(points, p0, p1);
    SortByOrderSorted(points, p0, p1);
    assert forall q :: q in sorted ==> q in points by {
      forall q | q in sorted ensures q in points {
        assert q in multiset(sorted);
      }
    }
    var stack := [p0];
    var i := 0;
    while i < |sorted|
      invariant 0 <= i <= |sorted|
      invariant |stack| >= 1 && stack[0] == p0 && RightTurns(stack)
      invariant forall q :: q in stack ==> q == p0 || q in sorted
    {
      var p := sorted[i];
      ghost var before := stack;
      stack := PopNonRight(stack, p);
      assert forall j :: 0 <= j < |stack| ==> stack[j] == before[j];
      stack := stack + [p];
      i := i + 1;
    }
    // The last iteration, over the appended p1, then the final pop.
    ghost var before := stack;
    stack := PopNonRight(stack, p1);
    assert forall j :: 0 <= j < |stack| ==> stack[j] == before[j];
    stack := stack + [p1];
    assert RightTurns(stack);
    stack := stack[..|stack| - 1];
    chain := stack;
  }

  /**
   * The inner loop of the chain scan: pop the top while at least two
   * points are stacked and the top two do not turn strictly right into p.
   * What is left is a prefix that p extends with a strict right turn.
   */
  method PopNonRight(stack: seq<Vec2>, p: Vec2) returns (s: seq<Vec2>)
    requires |stack| >= 1 && RightTurns(stack)
    ensures 1 <= |s| <= |stack| && s == stack[..|s|]
    ensures RightTurns(s + [p])
  {
    s := stack;
    while |s| >= 2 && Side(s[|s| - 2], s[|s| - 1], p) >= 0.0
      invariant 1 <= |s| <= |stack| && s == stack[..|s|]
      decreases |s|
    {
      s := s[..|s| - 1];
    }
    assert RightTurns(s);
    ghost var t := s + [p];
    forall i | 0 <= i < |t| - 2 ensures Side(t[i], t[i + 1], t[i + 2]) < 0.0 {
      if i + 2 < |s| {
        assert t[i] == s[i] && t[i + 1] == s[i + 1] && t[i + 2] == s[i + 2];
      }
    }
  }

  /**
   * _ahull_partition_points, for a non-empty list of points strictly or
   * weakly left of p0 -> p1 (every call the source makes has one): the
   * furthest point exists and partitions the list; each of the two sides
   * with at most one point appends its first end point and that point,
   * one with at most four times as many points as were culled is
   * partitioned again, and any other is finished by the chain scan.  The
   * sub-hull starts at p0 and takes its other points from the list.
   */
  method PartitionPoints(points: seq<Vec2>, p0: Vec2, p1: Vec2) returns (sub: seq<Vec2>)
    requires |points| >= 1
    requires forall k :: 0 <= k < |points| ==> Side(p0, p1, points[k]) >= 0.0
    ensures |sub| >= 2 && sub[0] == p0
    ensures forall q :: q in sub ==> q == p0 || q in points
    decreases |points|
  {
    var found := Furthest(points, p0, p1);
    assert Side(p0, p1, points[0]) > -1.0;
    var pp := found.value;
    var left, right := SplitByTriangle(points, p0, p1, pp);
    OutsideShorter(points, p0, p1, pp, true);
    OutsideShorter(points, p0, p1, pp, false);
    var leftCount, rightCount := |left|, |right|;
    var maxPartition := (|points| - leftCount - rightCount) * 4;
    if Side(p0, p1, pp) > 0.0 {
      forall q | q in left ensures Side(p0, pp, q) > 0.0 {
        OutsideSides(p0, p1, pp, q);
      }
      forall q | q in right ensures Side(pp, p1, q) > 0.0 {
        OutsideSides(p0, p1, pp, q);
      }
    } else {
      assert Side(p0, p1, pp) == 0.0 by { assert Side(p0, p1, points[0]) <= Side(p0, p1, pp); }
      DenomSquare(p0, p1, pp);
      NothingOutside(points, p0, p1, pp);
    }
    var leftHull, rightHull;
    if leftCount <= 1 {
      leftHull := [p0] + left;
    } else if leftCount <= maxPartition {
      leftHull := PartitionPoints(left, p0, pp);
    } else {
      leftHull := SortPoints(left, p0, pp);
    }
    if rightCount <= 1 {
      rightHull := [pp] + right;
    } else if rightCount <= maxPartition {
      rightHull := PartitionPoints(right, pp, p1);
    } else {
      rightHull := SortPoints(right, pp, p1);
    }
    sub := leftHull + rightHull;
  }

  // ---------------------------------------------------------------
  // _adaptive_quick_hull
  // ---------------------------------------------------------------

  /** The first half of the hull: the upper set partitioned from the leftmost point, or that point alone. */
  method UpperHull(points: seq<Vec2>, leftmost: Vec2, rightmost: Vec2, upperPoints: set<Vec2>) returns (sub: seq<Vec2>)
    requires upperPoints == UpperSet(points, leftmost, rightmost)
    ensures |sub| >= 1 && sub[0] == leftmost
    ensures forall q :: q in sub ==> q == leftmost || q in upperPoints
    ensures upperPoints == {} ==> sub == [leftmost]
  {
    if upperPoints != {} {
      var ups := SetToList(upperPoints);
      assert ups[0] in upperPoints;
      forall k | 0 <= k < |ups| ensures Side(leftmost, rightmost, ups[k]) >= 0.0 {
        assert ups[k] in ups;
        assert ups[k] in points && Side(leftmost, rightmost, ups[k]) > 0.0;
      }
      sub := PartitionPoints(ups, leftmost, rightmost);
    } else {
      sub := [leftmost];
    }
  }

  /** A single point is both extremes and leaves both sets empty. */
  lemma SinglePointSets(points: seq<Vec2>)
    requires |points| == 1
    ensures FirstLeastX(points) == points[0] && FirstGreatestX(points) == points[0]
    ensures UpperSet(points, points[0], points[0]) == {} && LowerSet(points, points[0], points[0]) == {}
  {
    assert forall q :: q in points ==> q == points[0];
  }

  /** The second half of the hull: the lower set partitioned back from the rightmost point, or that point alone. */
  method LowerHull(points: seq<Vec2>, leftmost: Vec2, rightmost: Vec2, lowerPoints: set<Vec2>) returns (sub: seq<Vec2>)
    requires lowerPoints == LowerSet(points, leftmost, rightmost)
    ensures |sub| >= 1 && sub[0] == rightmost
    ensures forall q :: q in sub ==> q == rightmost || q in lowerPoints
    ensures lowerPoints == {} ==> sub == [rightmost]
  {
    if lowerPoints != {} {
      var lows := SetToList(lowerPoints);
      assert lows[0] in lowerPoints;
      forall k | 0 <= k < |lows| ensures Side(rightmost, leftmost, lows[k]) >= 0.0 {
        assert lows[k] in lows;
        assert lows[k] in points && Side(leftmost, rightmost, lows[k]) <= 0.0;
        SideAntisymmetric(leftmost, rightmost, lows[k]);
      }
      sub := PartitionPoints(lows, rightmost, leftmost);
    } else {
      sub := [rightmost];
    }
  }

  /**
   * _adaptive_quick_hull: reading points[0] of an empty list raises
   * IndexError; otherwise the hull starts at the leftmost point, passes
   * the rightmost one, and takes every point from the input.  An empty
   * upper (lower) set contributes just the leftmost (rightmost) point, so
   * one point gives that point twice.  In exact arithmetic the partition
   * point always exists.
   */
  method AdaptiveQuickHull(points: seq<Vec2>) returns (r: Result<seq<Vec2>>)
    ensures |points| == 0 <==> r.Err?
    ensures r.Err? ==> r.error == IndexError
    ensures r.Ok? ==> |r.value| >= 2 && r.value[0] == FirstLeastX(points)
    ensures r.Ok? ==> exists m :: 0 < m < |r.value| && r.value[m] == FirstGreatestX(points)
    ensures r.Ok? ==> forall q :: q in r.value ==> q in points
    ensures |points| == 1 ==> r == Ok([points[0], points[0]])
  {
    if |points| == 0 {
      return Err(IndexError);
    }
    var leftmost, rightmost := FindExtremes(points);
    var upperPoints, lowerPoints := SplitSets(points, leftmost, rightmost);
    var hull := UpperHull(points, leftmost, rightmost, upperPoints);
    var mid := |hull|;
    var lowerHull := LowerHull(points, leftmost, rightmost, lowerPoints);
    hull := hull + lowerHull;
    assert hull[mid] == rightmost;
    if |points| == 1 {
      SinglePointSets(points);
      assert hull == [points[0]] + [points[0]] == [points[0], points[0]];
    }
    return Ok(hull);
  }
}

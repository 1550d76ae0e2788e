/**
 * The geometric helpers shared by the C implementation of the planar
 * library (belgika/planar/planar.h): the SIDE cross product, the segment
 * intersection test, the lexicographic vector order, and the bounding box
 * used by polygons.  Coordinates are exact reals.
 */
module Planar {
  datatype Vec2 = Vec2(x: real, y: real)

  /** FLT_MAX of an IEEE single: the start value of PlanarBBox_fromSeq2. */
  const FLT_MAX: real := 340282346638528859811704183484516925440.0

  function Add(a: Vec2, b: Vec2): Vec2 { Vec2(a.x + b.x, a.y + b.y) }
  function Sub(a: Vec2, b: Vec2): Vec2 { Vec2(a.x - b.x, a.y - b.y) }
  function Scale(a: Vec2, k: real): Vec2 { Vec2(a.x * k, a.y * k) }

  /** The point a + t * (b - a) on the line through a and b. */
  function Lerp(a: Vec2, b: Vec2, t: real): Vec2 { Add(a, Scale(Sub(b, a), t)) }

  /** SIDE(a, b, c): the cross product (b - a) x (c - a). */
  function Side(a: Vec2, b: Vec2, c: Vec2): real {
    (b.x - a.x) * (c.y - a.y) - (c.x - a.x) * (b.y - a.y)
  }

  lemma SideAntisymmetric(a: Vec2, b: Vec2, c: Vec2)
    ensures Side(b, a, c) == -Side(a, b, c)
    ensures Side(a, c, b) == -Side(a, b, c)
  {
  }

  lemma SideCyclic(a: Vec2, b: Vec2, c: Vec2)
    ensures Side(a, b, c) == Side(b, c, a) == Side(c, a, b)
  {
  }

  lemma SideTranslate(a: Vec2, b: Vec2, c: Vec2, t: Vec2)
    ensures Side(Add(a, t), Add(b, t), Add(c, t)) == Side(a, b, c)
  {
  }

  /** Moving c along the direction of a->b does not change its side. */
  lemma SideShear(a: Vec2, b: Vec2, c: Vec2, k: real)
    ensures Side(a, b, Add(c, Scale(Sub(b, a), k))) == Side(a, b, c)
  {
    var u := Sub(b, a);
    calc {
      Side(a, b, Add(c, Scale(u, k)));
      u.x * (c.y + u.y * k - a.y) - (c.x + u.x * k - a.x) * u.y;
      u.x * (c.y - a.y) - (c.x - a.x) * u.y + (u.x * (u.y * k) - (u.x * k) * u.y);
      { assert u.x * (u.y * k) == (u.x * k) * u.y; }
      Side(a, b, c);
    }
  }

  /**
   * SIDE is 0 exactly when c lies on the line through a and b (a != b):
   * c is then a + t * (b - a) for some t.
   */
  lemma SideZeroIffCollinear(a: Vec2, b: Vec2, c: Vec2)
    requires a != b
    ensures Side(a, b, c) == 0.0 <==> exists t: real :: c == Lerp(a, b, t)
  {
    if Side(a, b, c) == 0.0 {
      var u, w := Sub(b, a), Sub(c, a);
      var t := ParallelWitness(u.x, u.y, w.x, w.y);
      assert c == Lerp(a, b, t);
    } else {
      forall t: real ensures c != Lerp(a, b, t) {
        if c == Lerp(a, b, t) {
          SideOnLine(a, b, t);
        }
      }
    }
  }

  /** A vector (wx, wy) parallel to a nonzero (ux, uy) is a multiple of it. */
  lemma ParallelWitness(ux: real, uy: real, wx: real, wy: real) returns (t: real)
    requires ux != 0.0 || uy != 0.0
    requires ux * wy - wx * uy == 0.0
    ensures ux * t == wx && uy * t == wy
  {
    if ux != 0.0 {
      t := wx / ux;
      DivMul(wx, ux);
      assert ux * (uy * t) == uy * (ux * t);
      CancelNonZero(ux, uy * t, wy);
    } else {
      t := wy / uy;
      DivMul(wy, uy);
      assert uy * (ux * t) == ux * (uy * t);
      CancelNonZero(uy, ux * t, wx);
    }
  }

  lemma DivMul(p: real, q: real)
    requires q != 0.0
    ensures (p / q) * q == p
  {
  }

  lemma CancelNonZero(k: real, p: real, r: real)
    requires k != 0.0 && k * p == k * r
    ensures p == r
  {
    assert k * (p - r) == 0.0;
  }

  lemma SideOnLine(a: Vec2, b: Vec2, t: real)
    ensures Side(a, b, Lerp(a, b, t)) == 0.0
  {
    var u := Sub(b, a);
    assert Side(a, b, Lerp(a, b, t)) == u.x * (u.y * t) - (u.x * t) * u.y;
  }

  /** The sign class of a SIDE value as segments_intersect reads it. */
  predicate SignDiffers(d1: real, d2: real) {
    (d1 > 0.0) != (d2 > 0.0) || (d1 == 0.0) != (d2 == 0.0)
  }

  /** segments_intersect: 1 if segment a->b meets segment c->d. */
  predicate SegmentsIntersect(a: Vec2, b: Vec2, c: Vec2, d: Vec2) {
    SignDiffers(Side(a, b, c), Side(a, b, d)) && SignDiffers(Side(c, d, a), Side(c, d, b))
  }

  lemma SignDiffersNegate(d1: real, d2: real)
    ensures SignDiffers(-d1, -d2) == SignDiffers(d1, d2)
  {
  }

  /** The test does not depend on which segment is given first ... */
  lemma SegmentsIntersectSymmetric(a: Vec2, b: Vec2, c: Vec2, d: Vec2)
    ensures SegmentsIntersect(a, b, c, d) == SegmentsIntersect(c, d, a, b)
  {
  }

  /** ... nor on the direction in which either segment is traversed. */
  lemma SegmentsIntersectReversed(a: Vec2, b: Vec2, c: Vec2, d: Vec2)
    ensures SegmentsIntersect(a, b, c, d) == SegmentsIntersect(b, a, c, d)
    ensures SegmentsIntersect(a, b, c, d) == SegmentsIntersect(a, b, d, c)
  {
    SideAntisymmetric(a, b, c);
    SideAntisymmetric(a, b, d);
    SideAntisymmetric(c, d, a);
    SideAntisymmetric(c, d, b);
    SignDiffersNegate(Side(a, b, c), Side(a, b, d));
    SignDiffersNegate(Side(c, d, a), Side(c, d, b));
  }

  /**
   * Two edges that share an endpoint always test as intersecting unless
   * their three points are collinear: this is why the simplicity sweep
   * must skip adjacent edges.
   */
  lemma AdjacentEdgesIntersect(a: Vec2, b: Vec2, c: Vec2)
    requires Side(a, b, c) != 0.0
    ensures SegmentsIntersect(a, b, b, c)
  {
    SideCyclic(a, b, c);
  }

  /** Segments lying on one line never test as intersecting. */
  lemma CollinearSegmentsDoNotIntersect(a: Vec2, b: Vec2, c: Vec2, d: Vec2)
    requires Side(a, b, c) == 0.0 && Side(a, b, d) == 0.0
    ensures !SegmentsIntersect(a, b, c, d)
  {
  }

  /** A segment strictly on one side of the other's line does not meet it. */
  lemma SameSideDoesNotIntersect(a: Vec2, b: Vec2, c: Vec2, d: Vec2)
    requires Side(a, b, c) * Side(a, b, d) > 0.0
    ensures !SegmentsIntersect(a, b, c, d)
  {
    var d1, d2 := Side(a, b, c), Side(a, b, d);
    assert (d1 > 0.0) == (d2 > 0.0) && d1 != 0.0 && d2 != 0.0 by {
      if d1 <= 0.0 && d2 >= 0.0 { MulSigns(-d1, d2); }
      if d1 >= 0.0 && d2 <= 0.0 { MulSigns(d1, -d2); }
    }
  }

  lemma MulSigns(x: real, y: real)
    requires x >= 0.0 && y >= 0.0
    ensures x * y >= 0.0
  {
  }

  /** Two segments that properly cross each other's lines intersect. */
  lemma ProperCrossingIntersects(a: Vec2, b: Vec2, c: Vec2, d: Vec2)
    requires Side(a, b, c) * Side(a, b, d) < 0.0
    requires Side(c, d, a) * Side(c, d, b) < 0.0
    ensures SegmentsIntersect(a, b, c, d)
  {
  }

  /** VEC_LT: a precedes b in lexicographic (x, then y) order. */
  predicate VecLt(a: Vec2, b: Vec2) {
    a.x < b.x || (a.x == b.x && a.y < b.y)
  }

  function Sgn(greater: bool, less: bool): int {
    (if greater then 1 else 0) - (if less then 1 else 0)
  }

  /** compare_vec_lexi: the qsort comparator ordering vectors by x, then y. */
  function CompareLexi(a: Vec2, b: Vec2): (r: int)
    ensures -1 <= r <= 1
  {
    var result := Sgn(a.x > b.x, a.x < b.x);
    if result != 0 then result else Sgn(a.y > b.y, a.y < b.y)
  }

  /** The comparator agrees with VEC_LT, and with equality. */
  lemma CompareLexiOrder(a: Vec2, b: Vec2)
    ensures CompareLexi(a, b) < 0 <==> VecLt(a, b)
    ensures CompareLexi(a, b) == 0 <==> a == b
    ensures CompareLexi(a, b) > 0 <==> VecLt(b, a)
  {
  }

  lemma CompareLexiAntisymmetric(a: Vec2, b: Vec2)
    ensures CompareLexi(a, b) == -CompareLexi(b, a)
  {
  }

  lemma CompareLexiTransitive(a: Vec2, b: Vec2, c: Vec2)
    requires CompareLexi(a, b) <= 0 && CompareLexi(b, c) <= 0
    ensures CompareLexi(a, c) <= 0
  {
    CompareLexiOrder(a, b);
    CompareLexiOrder(b, c);
    CompareLexiOrder(a, c);
  }

  /** PlanarBBoxObject: the corners of a box. */
  datatype BBox = BBox(min: Vec2, max: Vec2)

  /**
   * PlanarBBox_contains_point (and the contains_point of the BoundingBox
   * classes): half-open, x in [min.x, max.x), y in (min.y, max.y].
   */
  predicate ContainsPoint(b: BBox, p: Vec2) {
    p.x >= b.min.x && p.x < b.max.x && p.y > b.min.y && p.y <= b.max.y
  }

  /** Every coordinate bound of b lies on or beyond every vertex of s. */
  ghost predicate Encloses(b: BBox, s: seq<Vec2>) {
    forall i :: 0 <= i < |s| ==>
      b.min.x <= s[i].x <= b.max.x && b.min.y <= s[i].y <= b.max.y
  }

  /**
   * PlanarBBox_fromSeq2: start at (FLT_MAX, -FLT_MAX) and widen to each
   * vertex.  The result encloses every vertex; each bound is either its
   * start value or attained by a vertex.
   */
  method FromSeq2(s: seq<Vec2>) returns (b: BBox)
    ensures Encloses(b, s)
    ensures b.min.x <= FLT_MAX && (b.min.x == FLT_MAX || exists i :: 0 <= i < |s| && s[i].x == b.min.x)
    ensures b.min.y <= FLT_MAX && (b.min.y == FLT_MAX || exists i :: 0 <= i < |s| && s[i].y == b.min.y)
    ensures b.max.x >= -FLT_MAX && (b.max.x == -FLT_MAX || exists i :: 0 <= i < |s| && s[i].x == b.max.x)
    ensures b.max.y >= -FLT_MAX && (b.max.y == -FLT_MAX || exists i :: 0 <= i < |s| && s[i].y == b.max.y)
  {
    var minX, minY, maxX, maxY := FLT_MAX, FLT_MAX, -FLT_MAX, -FLT_MAX;
    var i := 0;
    while i < |s|
      invariant 0 <= i <= |s|
      invariant forall j :: 0 <= j < i ==> minX <= s[j].x <= maxX && minY <= s[j].y <= maxY
      invariant minX <= FLT_MAX && (minX == FLT_MAX || exists j :: 0 <= j < i && s[j].x == minX)
      invariant minY <= FLT_MAX && (minY == FLT_MAX || exists j :: 0 <= j < i && s[j].y == minY)
      invariant maxX >= -FLT_MAX && (maxX == -FLT_MAX || exists j :: 0 <= j < i && s[j].x == maxX)
      invariant maxY >= -FLT_MAX && (maxY == -FLT_MAX || exists j :: 0 <= j < i && s[j].y == maxY)
    {
      var v := s[i];
      if v.x < minX { minX := v.x; }
      if v.x > maxX { maxX := v.x; }
      if v.y < minY { minY := v.y; }
      if v.y > maxY { maxY := v.y; }
      i := i + 1;
    }
    b := BBox(Vec2(minX, minY), Vec2(maxX, maxY));
  }

  /**
   * When every coordinate lies within [-FLT_MAX, FLT_MAX] and there is a
   * vertex, the box fromSeq2 builds is tight: its corners are the least
   * and greatest coordinates.  (A coordinate beyond FLT_MAX keeps the
   * start value instead.)
   */
  lemma FromSeq2Tight(s: seq<Vec2>, b: BBox)
    requires |s| > 0
    requires forall i :: 0 <= i < |s| ==> -FLT_MAX <= s[i].x <= FLT_MAX && -FLT_MAX <= s[i].y <= FLT_MAX
    requires Encloses(b, s)
    requires b.min.x == FLT_MAX || exists i :: 0 <= i < |s| && s[i].x == b.min.x
    requires b.max.x == -FLT_MAX || exists i :: 0 <= i < |s| && s[i].x == b.max.x
    requires b.min.y == FLT_MAX || exists i :: 0 <= i < |s| && s[i].y == b.min.y
    requires b.max.y == -FLT_MAX || exists i :: 0 <= i < |s| && s[i].y == b.max.y
    ensures exists i :: 0 <= i < |s| && s[i].x == b.min.x
    ensures exists i :: 0 <= i < |s| && s[i].x == b.max.x
    ensures exists i :: 0 <= i < |s| && s[i].y == b.min.y
    ensures exists i :: 0 <= i < |s| && s[i].y == b.max.y
  {
    if b.min.x == FLT_MAX {
      assert s[0].x == b.min.x;
    }
    if b.max.x == -FLT_MAX {
      assert s[0].x == b.max.x;
    }
    if b.min.y == FLT_MAX {
      assert s[0].y == b.min.y;
    }
    if b.max.y == -FLT_MAX {
      assert s[0].y == b.max.y;
    }
  }

  /** Boxes that share a vertical edge never both contain a point. */
  lemma ContainsPointTiles(left: BBox, right: BBox, p: Vec2)
    requires left.max.x == right.min.x
    ensures !(ContainsPoint(left, p) && ContainsPoint(right, p))
  {
  }

  /** Nor do boxes stacked one on the other. */
  lemma ContainsPointTilesVertically(below: BBox, above: BBox, p: Vec2)
    requires below.max.y == above.min.y
    ensures !(ContainsPoint(below, p) && ContainsPoint(above, p))
  {
  }
}

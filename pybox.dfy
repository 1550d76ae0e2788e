/**
 * The BoundingBox class of belgika/planar/box.py: an immutable pair of
 * corners built by a loop over points or shapes, and the pure readers and
 * builders over it.  The spec functions here (BoundsOf, ShapesBound) are
 * the reference the Python and the C loops are both proved against.
 */
module PyBox {
  import opened Wrappers
  import opened Planar

  function Min(a: real, b: real): real { if a <= b then a else b }
  function Max(a: real, b: real): real { if a >= b then a else b }
  function Abs(x: real): real { if x < 0.0 then -x else x }

  /** The corners are in order on both axes. */
  predicate IsNormal(b: BBox) {
    b.min.x <= b.max.x && b.min.y <= b.max.y
  }

  /** Box b widened just enough to reach point p. */
  function Widen(b: BBox, p: Vec2): BBox {
    BBox(Vec2(Min(b.min.x, p.x), Min(b.min.y, p.y)), Vec2(Max(b.max.x, p.x), Max(b.max.y, p.y)))
  }

  /** The box around a non-empty point list, widened point by point. */
  function BoundsOf(s: seq<Vec2>): BBox
    requires |s| > 0
    decreases |s|
  {
    if |s| == 1 then BBox(s[0], s[0]) else Widen(BoundsOf(s[..|s| - 1]), s[|s| - 1])
  }

  /** Each of the four bounds of b is a coordinate of some point of s. */
  ghost predicate Attained(b: BBox, s: seq<Vec2>) {
    (exists i :: 0 <= i < |s| && s[i].x == b.min.x) &&
    (exists i :: 0 <= i < |s| && s[i].y == b.min.y) &&
    (exists i :: 0 <= i < |s| && s[i].x == b.max.x) &&
    (exists i :: 0 <= i < |s| && s[i].y == b.max.y)
  }

  /** The corners to_polygon lays out: from the minimum up the left side, then the maximum. */
  function Corners(b: BBox): (r: seq<Vec2>)
    ensures |r| == 4 && r[0] == b.min && r[2] == b.max
  {
    [b.min, Vec2(b.min.x, b.max.y), b.max, Vec2(b.max.x, b.min.y)]
  }

  /** A normal box is the bounding box of its own corners. */
  lemma CornersBounds(b: BBox)
    requires IsNormal(b)
    ensures BoundsOf(Corners(b)) == b
  {
    var c := Corners(b);
    assert c[..3][..2][..1] == [b.min];
    assert BoundsOf(c[..3][..2]) == BBox(b.min, Vec2(b.min.x, b.max.y));
    assert BoundsOf(c[..3]) == b;
  }

  /**
   * The box of a point list is the tight one: it encloses every point and
   * each bound is reached by a point, so it is normal.
   */
  lemma {:induction false} BoundsOfTight(s: seq<Vec2>)
    requires |s| > 0
    ensures Encloses(BoundsOf(s), s)
    ensures Attained(BoundsOf(s), s)
    ensures IsNormal(BoundsOf(s))
    decreases |s|
  {
    if |s| > 1 {
      var t := s[..|s| - 1];
      var n := |s| - 1;
      BoundsOfTight(t);
      var bt, b := BoundsOf(t), BoundsOf(s);
      assert b == Widen(bt, s[n]);
      forall i | 0 <= i < |s|
        ensures b.min.x <= s[i].x <= b.max.x && b.min.y <= s[i].y <= b.max.y
      {
        if i < n {
          assert s[i] == t[i];
        }
      }
      var i0 :| 0 <= i0 < |t| && t[i0].x == bt.min.x;
      var i1 :| 0 <= i1 < |t| && t[i1].y == bt.min.y;
      var i2 :| 0 <= i2 < |t| && t[i2].x == bt.max.x;
      var i3 :| 0 <= i3 < |t| && t[i3].y == bt.max.y;
      assert s[i0] == t[i0] && s[i1] == t[i1] && s[i2] == t[i2] && s[i3] == t[i3];
      var j0 := if b.min.x == bt.min.x then i0 else n;
      var j1 := if b.min.y == bt.min.y then i1 else n;
      var j2 := if b.max.x == bt.max.x then i2 else n;
      var j3 := if b.max.y == bt.max.y then i3 else n;
      assert s[j0].x == b.min.x && s[j1].y == b.min.y && s[j2].x == b.max.x && s[j3].y == b.max.y;
    }
  }

  /** No box enclosing the points is smaller than BoundsOf. */
  lemma BoundsOfLeast(s: seq<Vec2>, b: BBox)
    requires |s| > 0 && Encloses(b, s)
    ensures b.min.x <= BoundsOf(s).min.x && b.min.y <= BoundsOf(s).min.y
    ensures BoundsOf(s).max.x <= b.max.x && BoundsOf(s).max.y <= b.max.y
  {
    BoundsOfTight(s);
  }

  /**
   * _init_min_max (from_points and the constructor): start at the first
   * point and, for each later one, move the min bound down or else the max
   * bound up.  No point raises ValueError.
   */
  method FromPoints(points: seq<Vec2>) returns (r: Result<BBox>)
    ensures |points| == 0 ==> r == Err(ValueError)
    ensures |points| > 0 ==> r == Ok(BoundsOf(points))
  {
    if |points| == 0 {
      return Err(ValueError);
    }
    var minX, minY := points[0].x, points[0].y;
    var maxX, maxY := minX, minY;
    var i := 1;
    while i < |points|
      invariant 1 <= i <= |points|
      invariant BBox(Vec2(minX, minY), Vec2(maxX, maxY)) == BoundsOf(points[..i])
      invariant minX <= maxX && minY <= maxY
    {
      var p := points[i];
      if p.x < minX {
        minX := p.x;
      } else if p.x > maxX {
        maxX := p.x;
      }
      if p.y < minY {
        minY := p.y;
      } else if p.y > maxY {
        maxY := p.y;
      }
      assert points[..i + 1][..i] == points[..i];
      i := i + 1;
    }
    assert points[..i] == points;
    r := Ok(BBox(Vec2(minX, minY), Vec2(maxX, maxY)));
  }

  /** Box a contains box b on both axes. */
  predicate BoxCovers(a: BBox, b: BBox) {
    a.min.x <= b.min.x && a.min.y <= b.min.y && b.max.x <= a.max.x && b.max.y <= a.max.y
  }

  /** The union box of two boxes: least mins and greatest maxes. */
  function Join(a: BBox, b: BBox): BBox {
    BBox(Vec2(Min(a.min.x, b.min.x), Min(a.min.y, b.min.y)), Vec2(Max(a.max.x, b.max.x), Max(a.max.y, b.max.y)))
  }

  /** The box around a non-empty list of shape boxes, joined one by one. */
  function ShapesBound(s: seq<BBox>): BBox
    requires |s| > 0
    decreases |s|
  {
    if |s| == 1 then s[0] else Join(ShapesBound(s[..|s| - 1]), s[|s| - 1])
  }

  /** The joined box covers every shape box, and is covered by any box that covers them all. */
  lemma {:induction false} ShapesBoundLeast(s: seq<BBox>, b: BBox)
    requires |s| > 0
    ensures forall i :: 0 <= i < |s| ==> BoxCovers(ShapesBound(s), s[i])
    ensures (forall i :: 0 <= i < |s| ==> BoxCovers(b, s[i])) ==> BoxCovers(b, ShapesBound(s))
    decreases |s|
  {
    if |s| > 1 {
      var t := s[..|s| - 1];
      ShapesBoundLeast(t, b);
      forall i | 0 <= i < |s|
        ensures BoxCovers(ShapesBound(s), s[i])
      {
        if i < |t| {
          assert s[i] == t[i];
        }
      }
      if forall i :: 0 <= i < |s| ==> BoxCovers(b, s[i]) {
        assert forall i :: 0 <= i < |t| ==> t[i] == s[i];
      }
    }
  }

  /**
   * from_shapes: the bounding boxes of the shapes joined in order, starting
   * from the first one; no shape raises ValueError.  The shapes are given
   * by their bounding boxes.
   */
  method FromShapes(boxes: seq<BBox>) returns (r: Result<BBox>)
    ensures |boxes| == 0 ==> r == Err(ValueError)
    ensures |boxes| > 0 ==> r == Ok(ShapesBound(boxes))
  {
    if |boxes| == 0 {
      return Err(ValueError);
    }
    var lo, hi := boxes[0].min, boxes[0].max;
    var i := 1;
    while i < |boxes|
      invariant 1 <= i <= |boxes|
      invariant BBox(lo, hi) == ShapesBound(boxes[..i])
    {
      var b := boxes[i];
      if b.min.x < lo.x { lo := Vec2(b.min.x, lo.y); }
      if b.min.y < lo.y { lo := Vec2(lo.x, b.min.y); }
      if b.max.x > hi.x { hi := Vec2(b.max.x, hi.y); }
      if b.max.y > hi.y { hi := Vec2(hi.x, b.max.y); }
      assert boxes[..i + 1][..i] == boxes[..i];
      i := i + 1;
    }
    assert boxes[..i] == boxes;
    r := Ok(BBox(lo, hi));
  }

  function Width(b: BBox): real { b.max.x - b.min.x }
  function Height(b: BBox): real { b.max.y - b.min.y }

  /** center: the midpoint of the corners. */
  function Center(b: BBox): Vec2 { Vec2((b.min.x + b.max.x) / 2.0, (b.min.y + b.max.y) / 2.0) }

  /** is_empty: zero width or zero height. */
  predicate IsEmpty(b: BBox) {
    Width(b) == 0.0 || Height(b) == 0.0
  }

  /** A normal box has zero area exactly when it contains no point at all. */
  lemma IsEmptyIffContainsNothing(b: BBox)
    requires IsNormal(b)
    ensures IsEmpty(b) <==> forall p :: !ContainsPoint(b, p)
  {
    if !IsEmpty(b) {
      assert ContainsPoint(b, Vec2(b.min.x, b.max.y));
    }
  }

  /**
   * contains_point is half-open: of the four corners of a box with area
   * only the (min.x, max.y) one is inside.
   */
  lemma ContainsOneCorner(b: BBox)
    requires IsNormal(b) && !IsEmpty(b)
    ensures ContainsPoint(b, Vec2(b.min.x, b.max.y))
    ensures !ContainsPoint(b, b.min) && !ContainsPoint(b, b.max)
    ensures !ContainsPoint(b, Vec2(b.max.x, b.min.y))
  {
  }

  /** The box of two points has the absolute coordinate differences as its sides. */
  lemma TwoPointBox(p: Vec2, q: Vec2)
    ensures IsNormal(BoundsOf([p, q]))
    ensures Width(BoundsOf([p, q])) == Abs(q.x - p.x) && Height(BoundsOf([p, q])) == Abs(q.y - p.y)
    ensures Center(BoundsOf([p, q])) == Vec2((p.x + q.x) / 2.0, (p.y + q.y) / 2.0)
  {
    assert [p, q][..1] == [p];
  }

  /**
   * from_center: the box of the two points half the width and height away
   * from the center, so a negative width or height is flipped.
   */
  function FromCenter(c: Vec2, width: real, height: real): (r: BBox)
    ensures IsNormal(r) && Center(r) == c
    ensures Width(r) == Abs(width) && Height(r) == Abs(height)
  {
    var hw, hh := width * 0.5, height * 0.5;
    TwoPointBox(Vec2(c.x - hw, c.y - hh), Vec2(c.x + hw, c.y + hh));
    BoundsOf([Vec2(c.x - hw, c.y - hh), Vec2(c.x + hw, c.y + hh)])
  }

  /**
   * inflate: move each corner out by half the amount (a scalar amount is
   * the vector (a, a)) and rebuild from the two points, so the result is
   * normal and centered where b is; its sides grow by the amount while
   * they stay non-negative.
   */
  function Inflate(b: BBox, amount: Vec2): (r: BBox)
    ensures IsNormal(r) && Center(r) == Center(b)
    ensures Width(r) == Abs(Width(b) + amount.x) && Height(r) == Abs(Height(b) + amount.y)
  {
    var dv := Vec2(amount.x / 2.0, amount.y / 2.0);
    TwoPointBox(Sub(b.min, dv), Add(b.max, dv));
    BoundsOf([Sub(b.min, dv), Add(b.max, dv)])
  }
}

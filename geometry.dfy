/**
 * The Extent rectangle of the JS client (app/lib/Geometry.js): an array
 * [minX, minY, maxX, maxY] that normalize, add and maxSquare update in place,
 * and the pure readers around it.
 */
module Geometry {
  import opened Planar

  /** Math.min, Math.max and Math.abs on exact reals. */
  function Min(a: real, b: real): real { if a <= b then a else b }
  function Max(a: real, b: real): real { if a >= b then a else b }
  function Abs(x: real): real { if x < 0.0 then -x else x }

  /** Each axis's two values are in order. */
  predicate IsNormal(e: seq<real>)
    requires |e| == 4
  {
    e[0] <= e[2] && e[1] <= e[3]
  }

  /** The point (x, y) lies in the closed rectangle of e. */
  predicate Covers(e: seq<real>, x: real, y: real)
    requires |e| == 4
  {
    e[0] <= x <= e[2] && e[1] <= y <= e[3]
  }

  /** What normalize leaves: the two values of each axis swapped into order. */
  function Normalized(e: seq<real>): (r: seq<real>)
    requires |e| == 4
    ensures |r| == 4 && IsNormal(r)
    ensures multiset{r[0], r[2]} == multiset{e[0], e[2]}
    ensures multiset{r[1], r[3]} == multiset{e[1], e[3]}
    ensures IsNormal(e) ==> r == e
  {
    var e1 := if e[0] > e[2] then e[0 := e[2]][2 := e[0]] else e;
    if e1[1] > e1[3] then e1[1 := e1[3]][3 := e1[1]] else e1
  }

  /** getWidth */
  function Width(e: seq<real>): (w: real)
    requires |e| == 4
    ensures w >= 0.0
    ensures w == e[2] - e[0] || w == e[0] - e[2]
  {
    Abs(e[2] - e[0])
  }

  /** getHeight */
  function Height(e: seq<real>): (h: real)
    requires |e| == 4
    ensures h >= 0.0
    ensures h == e[3] - e[1] || h == e[1] - e[3]
  {
    Abs(e[3] - e[1])
  }

  /** getCenter */
  function Center(e: seq<real>): (c: Vec2)
    requires |e| == 4
    ensures c.x - e[0] == e[2] - c.x && c.y - e[1] == e[3] - c.y
  {
    Vec2((e[0] + e[2]) / 2.0, (e[1] + e[3]) / 2.0)
  }

  /** Normalizing keeps size and center, and a second normalize changes nothing. */
  lemma NormalizedKeepsShape(e: seq<real>)
    requires |e| == 4
    ensures Width(Normalized(e)) == Width(e) && Height(Normalized(e)) == Height(e)
    ensures Center(Normalized(e)) == Center(e)
    ensures Normalized(Normalized(e)) == Normalized(e)
  {
  }

  /**
   * intersects: a two-element argument is a point and is widened to the
   * rectangle [x, y, x, y]; the test is closed overlap on both axes.  An
   * argument with fewer than four values otherwise reads undefined
   * coordinates, and every comparison with them is false.
   */
  function Intersects(e: seq<real>, v: seq<real>): (b: bool)
    requires |e| == 4
    ensures |v| == 2 ==> (b <==> Covers(e, v[0], v[1]))
    ensures |v| != 2 && |v| < 4 ==> !b
  {
    var r := if |v| == 2 then v + [v[0], v[1]] else v;
    |r| >= 4 && e[0] <= r[2] && r[0] <= e[2] && e[1] <= r[3] && r[1] <= e[3]
  }

  lemma IntersectsSymmetric(e: seq<real>, f: seq<real>)
    requires |e| == 4 && |f| == 4
    ensures Intersects(e, f) == Intersects(f, e)
  {
  }

  /** Two normal extents intersect exactly when they cover a common point. */
  lemma IntersectsIffCommonPoint(e: seq<real>, f: seq<real>)
    requires |e| == 4 && |f| == 4 && IsNormal(e) && IsNormal(f)
    ensures Intersects(e, f) <==> exists x, y :: Covers(e, x, y) && Covers(f, x, y)
  {
    if Intersects(e, f) {
      var x, y := Max(e[0], f[0]), Max(e[1], f[1]);
      assert Covers(e, x, y) && Covers(f, x, y);
    }
  }

  /** add: the union bounding box, the smallest extent holding both. */
  function Union(e: seq<real>, f: seq<real>): (r: seq<real>)
    requires |e| == 4 && |f| == 4
    ensures |r| == 4
    ensures r[0] <= e[0] && r[0] <= f[0] && (r[0] == e[0] || r[0] == f[0])
    ensures r[1] <= e[1] && r[1] <= f[1] && (r[1] == e[1] || r[1] == f[1])
    ensures r[2] >= e[2] && r[2] >= f[2] && (r[2] == e[2] || r[2] == f[2])
    ensures r[3] >= e[3] && r[3] >= f[3] && (r[3] == e[3] || r[3] == f[3])
  {
    [Min(e[0], f[0]), Min(e[1], f[1]), Max(e[2], f[2]), Max(e[3], f[3])]
  }

  /** Every point of either operand is a point of the union. */
  lemma UnionCovers(e: seq<real>, f: seq<real>, x: real, y: real)
    requires |e| == 4 && |f| == 4
    requires Covers(e, x, y) || Covers(f, x, y)
    ensures Covers(Union(e, f), x, y)
  {
  }

  /** bound: the intersection, max of the minimums and min of the maximums. */
  function Bound(e: seq<real>, f: seq<real>): (r: seq<real>)
    requires |e| == 4 && |f| == 4
    ensures |r| == 4
    ensures forall x, y :: Covers(r, x, y) <==> Covers(e, x, y) && Covers(f, x, y)
  {
    [Max(f[0], e[0]), Max(f[1], e[1]), Min(f[2], e[2]), Min(f[3], e[3])]
  }

  /** Two normal extents that intersect bound a normal extent. */
  lemma BoundOfIntersecting(e: seq<real>, f: seq<real>)
    requires |e| == 4 && |f| == 4 && IsNormal(e) && IsNormal(f)
    ensures Intersects(e, f) <==> IsNormal(Bound(e, f))
  {
  }

  /** What maxSquare leaves: the shorter side widened to the longer one. */
  function MaxSquared(e: seq<real>): (r: seq<real>)
    requires |e| == 4
    ensures |r| == 4 && Center(r) == Center(e)
    ensures IsNormal(e) ==> IsNormal(r) && Width(r) == Height(r) == Max(Width(e), Height(e))
  {
    var w, h := Width(e), Height(e);
    if w < h then
      var bw := (h - w) / 2.0;
      e[0 := e[0] - bw][2 := e[2] + bw]
    else if h < w then
      var bh := (w - h) / 2.0;
      e[1 := e[1] - bh][3 := e[3] + bh]
    else e
  }

  class Extent {
    /** [minX, minY, maxX, maxY] */
    var extent: seq<real>

    ghost predicate Valid()
      reads this
    {
      |extent| == 4
    }

    /** new Extent([minX, minY, maxX, maxY]) copies the array. */
    constructor (coords: seq<real>)
      requires |coords| == 4
      ensures Valid() && extent == coords
    {
      extent := coords;
    }

    /** new Extent(other) of an Extent copies its array. */
    constructor FromExtent(other: Extent)
      requires other.Valid()
      ensures Valid() && extent == other.extent
    {
      extent := other.extent;
    }

    /** new Extent({top, left, right, bottom}) reorders the sides into [left, top, right, bottom]. */
    constructor FromSides(top: real, left: real, right: real, bottom: real)
      ensures Valid() && extent == [left, top, right, bottom]
      ensures extent[0] == left && extent[1] == top && extent[2] == right && extent[3] == bottom
    {
      extent := [left, top, right, bottom];
    }

    method Normalize()
      requires Valid()
      modifies this
      ensures Valid() && extent == Normalized(old(extent))
    {
      if extent[0] > extent[2] {
        var tmp := extent[0];
        extent := extent[0 := extent[2]];
        extent := extent[2 := tmp];
      }
      if extent[1] > extent[3] {
        var tmp := extent[1];
        extent := extent[1 := extent[3]];
        extent := extent[3 := tmp];
      }
    }

    /** add(other): grows this extent to the union with other's coordinates. */
    method Add(other: seq<real>)
      requires Valid() && |other| == 4
      modifies this
      ensures Valid() && extent == Union(old(extent), other)
    {
      extent := extent[0 := Min(extent[0], other[0])];
      extent := extent[1 := Min(extent[1], other[1])];
      extent := extent[2 := Max(extent[2], other[2])];
      extent := extent[3 := Max(extent[3], other[3])];
    }

    method MaxSquare()
      requires Valid()
      modifies this
      ensures Valid() && extent == MaxSquared(old(extent))
    {
      var w, h := Width(extent), Height(extent);
      if w < h {
        var bw := (h - w) / 2.0;
        extent := extent[0 := extent[0] - bw];
        extent := extent[2 := extent[2] + bw];
      } else if h < w {
        var bh := (w - h) / 2.0;
        extent := extent[1 := extent[1] - bh];
        extent := extent[3 := extent[3] + bh];
      }
    }
  }
}

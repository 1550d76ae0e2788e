/**
 * The adaptive quick hull of cpolygon.c: ahull_partition_points, which
 * splits a point set by the point furthest from a line and the triangle
 * it spans, and adaptive_quick_hull, which starts it from the leftmost and
 * rightmost points and writes the hull into a buffer of its own.
 */
module CHull {
  import opened Wrappers
  import opened Planar

  function Dot(a: Vec2, b: Vec2): real { a.x * b.x + a.y * b.y }

  /**
   * The denominator of the barycentric coordinates of the triangle
   * pp -> p0 -> p1; zero when the triangle has no area.
   */
  function Denom(p0: Vec2, p1: Vec2, pp: Vec2): real {
    var v0, v1 := Sub(p0, pp), Sub(p1, pp);
    Dot(v0, v0) * Dot(v1, v1) - Dot(v0, v1) * Dot(v0, v1)
  }

  /** The barycentric coordinate u of q, given the inverse denominator. */
  function BaryU(p0: Vec2, p1: Vec2, pp: Vec2, q: Vec2, inv: real): real {
    var v0, v1, v2 := Sub(p0, pp), Sub(p1, pp), Sub(q, pp);
    (Dot(v1, v1) * Dot(v0, v2) - Dot(v0, v1) * Dot(v1, v2)) * inv
  }

  /** The barycentric coordinate v of q, given the inverse denominator. */
  function BaryV(p0: Vec2, p1: Vec2, pp: Vec2, q: Vec2, inv: real): real {
    var v0, v1, v2 := Sub(p0, pp), Sub(p1, pp), Sub(q, pp);
    (Dot(v0, v0) * Dot(v1, v2) - Dot(v0, v1) * Dot(v0, v2)) * inv
  }

  /** q is outside the triangle across the edge pp -> p0: it goes to the left set. */
  predicate InLeftSet(p0: Vec2, p1: Vec2, pp: Vec2, q: Vec2) {
    Denom(p0, p1, pp) != 0.0 && BaryV(p0, p1, pp, q, 1.0 / Denom(p0, p1, pp)) < 0.0
  }

  /** q is outside the triangle across the edge pp -> p1 only: it goes to the right set. */
  predicate InRightSet(p0: Vec2, p1: Vec2, pp: Vec2, q: Vec2) {
    Denom(p0, p1, pp) != 0.0 && !InLeftSet(p0, p1, pp, q) &&
    BaryU(p0, p1, pp, q, 1.0 / Denom(p0, p1, pp)) < 0.0
  }

  /** The partition point has both coordinates zero, so it is always culled. */
  lemma PartitionPointCulled(p0: Vec2, p1: Vec2, pp: Vec2, inv: real)
    ensures BaryU(p0, p1, pp, pp, inv) == 0.0 && BaryV(p0, p1, pp, pp, inv) == 0.0
  {
    var v0, v1, v2 := Sub(p0, pp), Sub(p1, pp), Sub(pp, pp);
    assert v2 == Vec2(0.0, 0.0);
    assert Dot(v0, v2) == 0.0 && Dot(v1, v2) == 0.0;
  }

  /** A partition of a set between two equal points has no triangle to split by. */
  lemma EqualEndsNoArea(p0: Vec2, pp: Vec2)
    ensures Denom(p0, p0, pp) == 0.0
  {
  }

  /**
   * The partition point: the first point of pts[lo .. lo + size) of
   * greatest SIDE from the line p0 -> p1, the first point if none is
   * above -1.
   */
  method Furthest(pts: array<Vec2>, lo: nat, size: nat, p0: Vec2, p1: Vec2) returns (pp: Vec2, ppi: nat)
    requires 1 <= size && lo + size <= pts.Length
    ensures lo <= ppi < lo + size && pp == pts[ppi]
    ensures forall k :: lo <= k < lo + size ==> Side(p0, p1, pts[k]) <= Side(p0, p1, pp) || Side(p0, p1, pts[k]) <= -1.0
    ensures (exists k :: lo <= k < lo + size && Side(p0, p1, pts[k]) > -1.0) ==>
      Side(p0, p1, pp) > -1.0 && forall k :: lo <= k < ppi ==> Side(p0, p1, pts[k]) < Side(p0, p1, pp)
    ensures (forall k :: lo <= k < lo + size ==> Side(p0, p1, pts[k]) <= -1.0) ==> ppi == lo
  {
    var furthest := -1.0;
    pp, ppi := pts[lo], lo;
    var i := lo;
    while i < lo + size
      invariant lo <= i <= lo + size && lo <= ppi < lo + size && pp == pts[ppi]
      invariant furthest >= -1.0
      invariant furthest == -1.0 ==> ppi == lo
      invariant furthest > -1.0 ==> furthest == Side(p0, p1, pp) && ppi < i
      invariant forall k :: lo <= k < i ==> Side(p0, p1, pts[k]) <= furthest
      invariant forall k :: lo <= k < ppi ==> Side(p0, p1, pts[k]) < furthest || furthest == -1.0
    {
      var dist := Side(p0, p1, pts[i]);
      if dist > furthest {
        furthest := dist;
        pp, ppi := pts[i], i;
      }
      i := i + 1;
    }
  }

  /**
   * The partition loop: with a triangle of non-zero area, points of
   * negative v are packed at the front, points of negative u swapped to
   * the back, and the others (the partition point among them) culled in
   * between, so the two sets leave out at least one point.  A triangle
   * without area culls everything.
   */
  method SplitByTriangle(pts: array<Vec2>, lo: nat, size: nat, p0: Vec2, p1: Vec2, pp: Vec2, ppi: nat, ghost s: set<Vec2>)
    returns (left: nat, right: nat)
    requires lo <= ppi < lo + size <= pts.Length && pts[ppi] == pp
    requires forall k :: lo <= k < lo + size ==> pts[k] in s
    modifies pts
    ensures lo <= left <= right <= lo + size
    ensures Denom(p0, p1, pp) != 0.0 ==> left < right
    ensures Denom(p0, p1, pp) == 0.0 ==> left == lo && right == lo + size
    ensures forall k :: lo <= k < left ==> InLeftSet(p0, p1, pp, pts[k])
    ensures forall k :: right <= k < lo + size ==> InRightSet(p0, p1, pp, pts[k])
    ensures forall k :: lo <= k < lo + size ==> pts[k] in s
    ensures forall k :: 0 <= k < pts.Length && !(lo <= k < lo + size) ==> pts[k] == old(pts[k])
  {
    left, right := lo, lo + size;
    var denom := Denom(p0, p1, pp);
    if denom != 0.0 {
      var inv := 1.0 / denom;
      PartitionPointCulled(p0, p1, pp, inv);
      var p := lo;
      ghost var w := ppi;
      while p < right
        invariant lo <= left <= p <= right <= lo + size
        invariant left < p || (p <= w < right && pts[w] == pp)
        invariant forall k :: lo <= k < left ==> InLeftSet(p0, p1, pp, pts[k])
        invariant forall k :: right <= k < lo + size ==> InRightSet(p0, p1, pp, pts[k])
        invariant forall k :: lo <= k < lo + size ==> pts[k] in s
        invariant forall k :: 0 <= k < pts.Length && !(lo <= k < lo + size) ==> pts[k] == old(pts[k])
        decreases right - p
      {
        var q := pts[p];
        if BaryV(p0, p1, pp, q, inv) < 0.0 {
          pts[left] := q;
          left, p := left + 1, p + 1;
        } else if BaryU(p0, p1, pp, q, inv) < 0.0 {
          pts[p], pts[right - 1] := pts[right - 1], q;
          w := if w == right - 1 then p else w;
          right := right - 1;
        } else {
          p := p + 1;
        }
      }
    }
  }

  /**
   * ahull_partition_points over pts[lo .. lo + size): the point furthest
   * from the line p0 -> p1 (by SIDE, starting from -1) partitions it; with
   * a triangle of non-zero area the points of negative v move to the
   * front (the left set), those of negative u to the back (the right set),
   * and the rest, the partition point among them, are culled.  Each side
   * with more than one point is partitioned again; otherwise p0 (or the
   * partition point) and that point are written.  The hull receives p0
   * first, at least one more point, and at most one point per point of the
   * set; with p0 == p1 it receives p0 and the partition point only.
   */
  method Partition(hull: array<Vec2>, pos: nat, pts: array<Vec2>, lo: nat, size: nat, p0: Vec2, p1: Vec2, ghost s: set<Vec2>)
    returns (end: nat)
    requires hull != pts
    requires 1 <= size && lo + size <= pts.Length
    requires pos + size + 1 <= hull.Length
    requires forall k :: lo <= k < lo + size ==> pts[k] in s
    modifies hull, pts
    ensures pos + 2 <= end <= pos + size + 1
    ensures p0 == p1 ==> end == pos + 2
    ensures hull[..pos] == old(hull[..pos])
    ensures hull[pos] == p0
    ensures forall k :: pos < k < end ==> hull[k] in s
    ensures forall k :: 0 <= k < pts.Length && !(lo <= k < lo + size) ==> pts[k] == old(pts[k])
    ensures forall k :: lo <= k < lo + size ==> pts[k] in s
    decreases size, 1
  {
    var pp, ppi := Furthest(pts, lo, size, p0, p1);
    var left, right := SplitByTriangle(pts, lo, size, p0, p1, pp, ppi, s);
    if p0 == p1 {
      EqualEndsNoArea(p0, pp);
    }
    var leftCount, rightCount := left - lo, lo + size - right;
    assert pp in s;
    end := EmitSide(hull, pos, pts, lo, leftCount, p0, pp, s);
    ghost var mid := end;
    label Split:
    end := EmitSide(hull, end, pts, right, rightCount, pp, p1, s);
    assert hull[..mid] == old@Split(hull[..mid]);
    assert hull[..pos] == old@Split(hull[..pos]);
    assert hull[pos] == old@Split(hull[pos]);
  }

  /**
   * One side of a partition: a set of at most one point writes the start
   * a and that point; a larger set is partitioned again between a and b.
   */
  method EmitSide(hull: array<Vec2>, pos: nat, pts: array<Vec2>, lo: nat, count: nat, a: Vec2, b: Vec2, ghost s: set<Vec2>)
    returns (end: nat)
    requires hull != pts
    requires lo + count <= pts.Length
    requires pos + count + 1 <= hull.Length
    requires forall k :: lo <= k < lo + count ==> pts[k] in s
    modifies hull, pts
    ensures pos + 1 <= end <= pos + count + 1
    ensures count == 0 ==> end == pos + 1
    ensures hull[..pos] == old(hull[..pos])
    ensures hull[pos] == a
    ensures forall k :: pos < k < end ==> hull[k] in s
    ensures forall k :: 0 <= k < pts.Length && !(lo <= k < lo + count) ==> pts[k] == old(pts[k])
    ensures forall k :: lo <= k < lo + count ==> pts[k] in s
    decreases count, 2
  {
    if count <= 1 {
      hull[pos] := a;
      end := pos + 1;
      if count == 1 {
        hull[end] := pts[lo];
        end := end + 1;
      }
    } else {
      end := Partition(hull, pos, pts, lo, count, a, b, s);
    }
  }

  /**
   * The leftmost and rightmost points of a non-empty list: the first
   * point of least and of greatest x.  They coincide only when all points
   * share one x.
   */
  method Extremes(points: seq<Vec2>) returns (lm: nat, rm: nat)
    requires |points| >= 1
    ensures lm < |points| && rm < |points|
    ensures forall k :: 0 <= k < |points| ==> points[lm].x <= points[k].x <= points[rm].x
    ensures lm == rm ==> lm == 0 && forall k :: 0 <= k < |points| ==> points[k].x == points[0].x
    ensures points[lm].x == points[rm].x ==> lm == 0 && rm == 0
  {
    lm, rm := 0, 0;
    var i := 1;
    while i < |points|
      invariant 1 <= i <= |points| && lm < i && rm < i
      invariant forall k :: 0 <= k < i ==> points[lm].x <= points[k].x <= points[rm].x
      invariant lm == rm ==> lm == 0 && forall k :: 0 <= k < i ==> points[k].x == points[0].x
      invariant points[lm].x == points[rm].x ==> lm == 0 && rm == 0
    {
      if points[i].x < points[lm].x {
        lm := i;
      }
      if points[i].x > points[rm].x {
        rm := i;
      }
      i := i + 1;
    }
  }

  /**
   * The split loop of adaptive_quick_hull: every point other than the
   * leftmost and rightmost goes to the front of sets when strictly left
   * of the line leftmost -> rightmost, and to the back otherwise.
   */
  method SplitSets(points: seq<Vec2>, lm: nat, rm: nat, ghost s: set<Vec2>) returns (sets: array<Vec2>, up: nat, low: nat)
    requires lm < |points| && rm < |points| && s == set x | x in points
    requires lm == rm ==> forall k :: 0 <= k < |points| ==> points[k].x == points[lm].x
    ensures fresh(sets) && sets.Length == |points| && up <= low <= |points|
    ensures up + (|points| - low) == |points| - 1 - (if rm != lm then 1 else 0)
    ensures forall k :: 0 <= k < up ==> sets[k] in s
    ensures forall k :: low <= k < |points| ==> sets[k] in s
    ensures lm == rm ==> up == 0
  {
    var n := |points|;
    sets := new Vec2[n];
    up, low := 0, n;
    var j := 0;
    while j < n
      invariant 0 <= j <= n && 0 <= up <= low <= n
      invariant up + (n - low) == j - (if lm < j then 1 else 0) - (if rm < j && rm != lm then 1 else 0)
      invariant forall k :: 0 <= k < up ==> sets[k] in s
      invariant forall k :: low <= k < n ==> sets[k] in s
      invariant lm == rm ==> up == 0
    {
      if j != lm && j != rm {
        if Side(points[lm], points[rm], points[j]) > 0.0 {
          sets[up] := points[j];
          up := up + 1;
        } else {
          low := low - 1;
          sets[low] := points[j];
        }
      }
      j := j + 1;
    }
  }

  /**
   * adaptive_quick_hull: the points other than the leftmost and rightmost
   * go to the upper set when strictly left of the line leftmost ->
   * rightmost and to the lower set otherwise; the upper set is partitioned
   * from leftmost to rightmost and the lower one back (an empty set
   * writes just its first end point).  Every hull point is an input point;
   * the hull starts at the leftmost point and passes the rightmost one.
   * The C buffer has one slot per input point: for three points or more
   * the hull fits it and has at least three points, but a single point
   * writes two, and two points with one x write three.  The model's buffer
   * has a spare slot so that these writes can be stated.
   */
  method AdaptiveQuickHull(points: seq<Vec2>) returns (hull: seq<Vec2>)
    requires |points| >= 1
    ensures 2 <= |hull| <= |points| + 1
    ensures forall k :: 0 <= k < |hull| ==> hull[k] in points
    ensures |points| >= 3 ==> 3 <= |hull| <= |points|
    ensures |points| == 1 ==> |hull| == 2
    ensures |points| == 2 && points[0].x == points[1].x ==> |hull| == 3
    ensures forall k :: 0 <= k < |points| ==> hull[0].x <= points[k].x
    ensures exists m :: 0 < m < |hull| && forall k :: 0 <= k < |points| ==> points[k].x <= hull[m].x
  {
    var n := |points|;
    ghost var s := set x | x in points;
    var lm, rm := Extremes(points);
    var sets, up, low := SplitSets(points, lm, rm, s);
    var buf := new Vec2[n + 1];
    var pos := 0;
    if up > 0 {
      pos := Partition(buf, 0, sets, 0, up, points[lm], points[rm], s);
    } else {
      buf[0] := points[lm];
      pos := 1;
    }
    ghost var mid := pos;
    assert forall k :: 0 <= k < mid ==> buf[k] in s;
    assert buf[0] == points[lm];
    ghost var head := buf[..mid];
    assert forall k :: 0 <= k < mid ==> head[k] in s;
    if low < n {
      pos := Partition(buf, pos, sets, low, n - low, points[rm], points[lm], s);
      assert buf[..mid] == head;
      forall k | 0 <= k < mid
        ensures buf[k] in s
      {
        assert buf[k] == head[k];
      }
    } else {
      buf[pos] := points[rm];
      pos := pos + 1;
    }
    assert forall k :: 0 <= k < pos ==> buf[k] in s;
    assert buf[0] == points[lm] && buf[mid] == points[rm];
    hull := buf[..pos];
    assert hull[mid] == points[rm];
    forall k | 0 <= k < |hull|
      ensures hull[k] in points
    {
      assert hull[k] == buf[k] && buf[k] in s;
    }
  }

  /**
   * The convex hull of a point list as Poly_convex_hull should build it:
   * fewer than three points cannot make a polygon and raise ValueError
   * before anything is written; otherwise the hull fits a buffer of one
   * slot per point, has at least three points, and takes them all from
   * the input.
   */
  method ConvexHull(points: seq<Vec2>) returns (r: Result<seq<Vec2>>)
    ensures |points| < 3 <==> r == Err(ValueError)
    ensures r.Err? ==> r.error == ValueError
    ensures r.Ok? ==> 3 <= |r.value| <= |points| && forall k :: 0 <= k < |r.value| ==> r.value[k] in points
  {
    if |points| < 3 {
      return Err(ValueError);
    }
    var hull := AdaptiveQuickHull(points);
    return Ok(hull);
  }
}

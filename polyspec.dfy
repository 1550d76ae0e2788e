/**
 * Reference definitions over a polygon's vertex list that the C polygon
 * (cpolygon.c) and the Python one (polygon.py) are both proved against:
 * cyclic neighbours, the edge list, simplicity, the winding number, the
 * fan centroid, vertex triples for equality, and the tangent scan.
 */
module PolySpec {
  import opened Wrappers
  import opened Planar

  function Next(i: nat, n: nat): (r: nat)
    requires i < n
    ensures r < n
  {
    if i + 1 == n then 0 else i + 1
  }

  function Prev(i: nat, n: nat): (r: nat)
    requires i < n
    ensures r < n
  {
    if i == 0 then n - 1 else i - 1
  }

  lemma NextPrev(i: nat, n: nat)
    requires i < n
    ensures Next(Prev(i, n), n) == i && Prev(Next(i, n), n) == i
  {
  }

  /** Edge k as a vector: from vertex k to the vertex after it. */
  function EdgeVec(verts: seq<Vec2>, k: nat): Vec2
    requires k < |verts|
  {
    Sub(verts[Next(k, |verts|)], verts[k])
  }

  /** The edge vectors in order; the last one closes the polygon. */
  function EdgeVecs(verts: seq<Vec2>): (r: seq<Vec2>)
    ensures |r| == |verts|
    ensures forall k :: 0 <= k < |verts| ==> r[k] == EdgeVec(verts, k)
  {
    seq(|verts|, k requires 0 <= k < |verts| => EdgeVec(verts, k))
  }

  /**
   * The simplicity tests compare edges i and j only when they are not
   * neighbours: 1 < |i - j| < n - 1 (the first and last edge share a
   * vertex too).
   */
  predicate NonAdjacent(i: int, j: int, n: int) {
    var d := if i < j then j - i else i - j;
    1 < d < n - 1
  }

  /** Non-adjacent edges i and j (each from vertex k to vertex k + 1) intersect. */
  predicate EdgesCross(verts: seq<Vec2>, i: nat, j: nat)
    requires i < |verts| && j < |verts|
  {
    NonAdjacent(i, j, |verts|) &&
    SegmentsIntersect(verts[i], verts[Next(i, |verts|)], verts[j], verts[Next(j, |verts|)])
  }

  /** A polygon is simple when no two non-adjacent edges intersect. */
  predicate IsSimpleSpec(verts: seq<Vec2>) {
    forall i, j :: 0 <= i < |verts| && 0 <= j < |verts| ==> !EdgesCross(verts, i, j)
  }

  lemma NonAdjacentSymmetric(i: int, j: int, n: int)
    ensures NonAdjacent(i, j, n) == NonAdjacent(j, i, n)
  {
  }

  /** A triangle has no pair of non-adjacent edges, so it is always simple. */
  lemma TriangleIsSimple(verts: seq<Vec2>)
    requires |verts| == 3
    ensures IsSimpleSpec(verts)
  {
  }

  // ---------------------------------------------------------------
  // Winding number (pnp_winding_test, _pnp_winding_test)
  // ---------------------------------------------------------------

  /**
   * The contribution of edge v0 -> v1 to the winding number of pt: +1 for
   * an upward crossing of pt's horizontal with pt on or right of the edge,
   * -1 for a downward crossing with pt on or left of it.
   */
  function WindingStep(v0: Vec2, v1: Vec2, pt: Vec2): int {
    var above0, above1 := v0.y >= pt.y, v1.y >= pt.y;
    if above0 == above1 then 0
    else if above1 then (if Side(v0, v1, pt) <= 0.0 then 1 else 0)
    else (if Side(v0, v1, pt) >= 0.0 then -1 else 0)
  }

  /** The crossings of the edges into vertices 0 .. k - 1 (the first edge comes from the last vertex). */
  function WindingPrefix(verts: seq<Vec2>, pt: Vec2, k: nat): int
    requires 0 < |verts| && k <= |verts|
  {
    if k == 0 then 0
    else WindingPrefix(verts, pt, k - 1) + WindingStep(verts[Prev(k - 1, |verts|)], verts[k - 1], pt)
  }

  function WindingNumber(verts: seq<Vec2>, pt: Vec2): int
    requires 0 < |verts|
  {
    WindingPrefix(verts, pt, |verts|)
  }

  /** A point below every vertex, or on or above every one, crosses no edge. */
  lemma {:induction false} WindingOutsideSlab(verts: seq<Vec2>, pt: Vec2, k: nat)
    requires 0 < |verts| && k <= |verts|
    requires (forall i :: 0 <= i < |verts| ==> verts[i].y >= pt.y) ||
             (forall i :: 0 <= i < |verts| ==> verts[i].y < pt.y)
    ensures WindingPrefix(verts, pt, k) == 0
  {
    if k > 0 {
      WindingOutsideSlab(verts, pt, k - 1);
    }
  }

  /** A point strictly left of both ends of an edge that crosses its height is on the edge's left. */
  lemma LeftOfCrossingEdge(lo: Vec2, hi: Vec2, pt: Vec2)
    requires lo.y < pt.y <= hi.y
    requires pt.x < lo.x && pt.x < hi.x
    ensures Side(lo, hi, pt) > 0.0
  {
    var s, h := pt.y - lo.y, hi.y - lo.y;
    assert 0.0 < s <= h;
    var w := pt.x - lo.x;
    assert Side(lo, hi, pt) == (hi.x - lo.x) * s - w * h;
    assert w * h < 0.0 by { MulPosNeg(h, w); }
    if hi.x >= lo.x {
      assert (hi.x - lo.x) * s >= 0.0 by { MulSigns(hi.x - lo.x, s); }
    } else {
      var dx := lo.x - hi.x;
      assert dx * (h - s) >= 0.0 by { MulSigns(dx, h - s); }
      assert (hi.x - lo.x) * s >= (hi.x - lo.x) * h;
      assert (hi.x - lo.x) * h - w * h == (hi.x - pt.x) * h;
      assert (hi.x - pt.x) * h > 0.0 by { MulPos(hi.x - pt.x, h); }
    }
  }

  /** And on or right of both ends puts it on the edge's right or on the edge. */
  lemma RightOfCrossingEdge(lo: Vec2, hi: Vec2, pt: Vec2)
    requires lo.y < pt.y <= hi.y
    requires pt.x >= lo.x && pt.x >= hi.x
    ensures Side(lo, hi, pt) <= 0.0
  {
    var s, h := pt.y - lo.y, hi.y - lo.y;
    assert 0.0 < s <= h;
    var w := pt.x - lo.x;
    assert Side(lo, hi, pt) == (hi.x - lo.x) * s - w * h;
    assert w * h >= 0.0 by { MulSigns(w, h); }
    if hi.x <= lo.x {
      assert (lo.x - hi.x) * s >= 0.0 by { MulSigns(lo.x - hi.x, s); }
    } else {
      var dx := hi.x - lo.x;
      assert dx * (h - s) >= 0.0 by { MulSigns(dx, h - s); }
      assert (hi.x - lo.x) * s <= (hi.x - lo.x) * h;
      assert (hi.x - lo.x) * h - w * h == (hi.x - pt.x) * h;
      assert (pt.x - hi.x) * h >= 0.0 by { MulSigns(pt.x - hi.x, h); }
    }
  }

  lemma MulPos(x: real, y: real)
    requires x > 0.0 && y > 0.0
    ensures x * y > 0.0
  {
  }

  lemma MulPosNeg(x: real, y: real)
    requires x > 0.0 && y < 0.0
    ensures y * x < 0.0
  {
    MulPos(x, -y);
  }

  /** A point strictly left of every vertex is never counted by any crossing. */
  lemma {:induction false} WindingLeftOfAll(verts: seq<Vec2>, pt: Vec2, k: nat)
    requires 0 < |verts| && k <= |verts|
    requires forall i :: 0 <= i < |verts| ==> pt.x < verts[i].x
    ensures WindingPrefix(verts, pt, k) == 0
  {
    if k > 0 {
      WindingLeftOfAll(verts, pt, k - 1);
      var v0, v1 := verts[Prev(k - 1, |verts|)], verts[k - 1];
      if v0.y < pt.y <= v1.y {
        LeftOfCrossingEdge(v0, v1, pt);
      } else if v1.y < pt.y <= v0.y {
        LeftOfCrossingEdge(v1, v0, pt);
        SideAntisymmetric(v1, v0, pt);
      }
    }
  }

  function AboveAt(verts: seq<Vec2>, pt: Vec2, i: nat): int
    requires i < |verts|
  {
    if verts[i].y >= pt.y then 1 else 0
  }

  /**
   * On or right of every vertex, every crossing counts, upward +1 and downward
   * -1, so the prefix telescopes to the change in "above" since the last
   * vertex.
   */
  lemma {:induction false} WindingRightTelescopes(verts: seq<Vec2>, pt: Vec2, k: nat)
    requires 0 < k <= |verts|
    requires forall i :: 0 <= i < |verts| ==> pt.x >= verts[i].x
    ensures WindingPrefix(verts, pt, k) == AboveAt(verts, pt, k - 1) - AboveAt(verts, pt, |verts| - 1)
  {
    var v0, v1 := verts[Prev(k - 1, |verts|)], verts[k - 1];
    if v0.y < pt.y <= v1.y {
      RightOfCrossingEdge(v0, v1, pt);
    } else if v1.y < pt.y <= v0.y {
      RightOfCrossingEdge(v1, v0, pt);
      SideAntisymmetric(v1, v0, pt);
    }
    if k > 1 {
      WindingRightTelescopes(verts, pt, k - 1);
    }
  }

  /** Hence a point on or right of every vertex is outside. */
  lemma WindingRightOfAll(verts: seq<Vec2>, pt: Vec2)
    requires 0 < |verts|
    requires forall i :: 0 <= i < |verts| ==> pt.x >= verts[i].x
    ensures WindingNumber(verts, pt) == 0
  {
    WindingRightTelescopes(verts, pt, |verts|);
  }

  /**
   * Outside a box around the vertices (half-open as contains_point reads
   * it) the winding number is zero, so the bounding-box test in front of
   * the winding test never changes its answer.
   */
  lemma OutsideBoxWindsZero(verts: seq<Vec2>, b: BBox, pt: Vec2)
    requires 0 < |verts| && Encloses(b, verts) && !ContainsPoint(b, pt)
    ensures WindingNumber(verts, pt) == 0
  {
    if pt.x < b.min.x {
      WindingLeftOfAll(verts, pt, |verts|);
    } else if pt.x >= b.max.x {
      WindingRightOfAll(verts, pt);
    } else {
      WindingOutsideSlab(verts, pt, |verts|);
    }
  }

  function Translate(verts: seq<Vec2>, t: Vec2): (r: seq<Vec2>)
    ensures |r| == |verts|
    ensures forall i :: 0 <= i < |verts| ==> r[i] == Add(verts[i], t)
  {
    seq(|verts|, i requires 0 <= i < |verts| => Add(verts[i], t))
  }

  /** Moving the polygon and the point together keeps the winding number. */
  lemma {:induction false} WindingTranslate(verts: seq<Vec2>, pt: Vec2, t: Vec2, k: nat)
    requires 0 < |verts| && k <= |verts|
    ensures WindingPrefix(Translate(verts, t), Add(pt, t), k) == WindingPrefix(verts, pt, k)
  {
    if k > 0 {
      WindingTranslate(verts, pt, t, k - 1);
      SideTranslate(verts[Prev(k - 1, |verts|)], verts[k - 1], pt, t);
    }
  }

  /** The unit square winds once (clockwise in this count) around its center and not at all around (2, 0.5). */
  lemma UnitSquareWinding()
    ensures WindingNumber([Vec2(0.0, 0.0), Vec2(1.0, 0.0), Vec2(1.0, 1.0), Vec2(0.0, 1.0)], Vec2(0.5, 0.5)) == -1
    ensures WindingNumber([Vec2(0.0, 0.0), Vec2(1.0, 0.0), Vec2(1.0, 1.0), Vec2(0.0, 1.0)], Vec2(2.0, 0.5)) == 0
  {
    var p0, p1, p2, p3 := Vec2(0.0, 0.0), Vec2(1.0, 0.0), Vec2(1.0, 1.0), Vec2(0.0, 1.0);
    var sq := [p0, p1, p2, p3];
    var c := Vec2(0.5, 0.5);
    // only the left edge, downward with the center on its left, counts
    assert Side(p3, p0, c) == 0.5 && Side(p1, p2, c) == 0.5;
    assert WindingStep(p3, p0, c) == -1 && WindingStep(p0, p1, c) == 0;
    assert WindingStep(p1, p2, c) == 0 && WindingStep(p2, p3, c) == 0;
    assert sq[0] == p0 && sq[1] == p1 && sq[2] == p2 && sq[3] == p3;
    assert WindingPrefix(sq, c, 1) == -1;
    assert WindingPrefix(sq, c, 2) == -1;
    assert WindingPrefix(sq, c, 3) == -1;
    assert WindingPrefix(sq, c, 4) == -1;
    WindingRightOfAll(sq, Vec2(2.0, 0.5));
  }

  // ---------------------------------------------------------------
  // Fan centroid (Poly_get_centroid, centroid)
  // ---------------------------------------------------------------

  /**
   * The area-weighted vertex sums of the fan triangles (v0, v[i - 1], v[i])
   * for 2 <= i < k, and their summed doubled signed areas.
   */
  function FanSums(verts: seq<Vec2>, k: nat): (Vec2, real)
    requires 2 <= k <= |verts|
    decreases k
  {
    if k == 2 then (Vec2(0.0, 0.0), 0.0)
    else AddTerms(FanSums(verts, k - 1), FanTerm(verts[0], verts[k - 2], verts[k - 1]))
  }

  /** Componentwise sum of two weighted terms. */
  function AddTerms(p: (Vec2, real), q: (Vec2, real)): (Vec2, real) {
    (Vec2(p.0.x + q.0.x, p.0.y + q.0.y), p.1 + q.1)
  }

  /** Triangle (a, b, c): its vertex sum weighted by its doubled signed area, and that area. */
  function FanTerm(a: Vec2, b: Vec2, c: Vec2): (Vec2, real) {
    var area := Side(a, b, c);
    (Vec2((a.x + b.x + c.x) * area, (a.y + b.y + c.y) * area), area)
  }

  /**
   * The centroid: the weighted sum over three times the total; a polygon
   * of zero area divides by zero.
   */
  function FanCentroid(verts: seq<Vec2>): Result<Vec2>
    requires 2 <= |verts|
  {
    var sums := FanSums(verts, |verts|);
    if sums.1 == 0.0 then Err(ZeroDivisionError)
    else Ok(Vec2(sums.0.x / (3.0 * sums.1), sums.0.y / (3.0 * sums.1)))
  }

  /** A triangle with area has the mean of its vertices as centroid. */
  lemma TriangleCentroid(a: Vec2, b: Vec2, c: Vec2)
    requires Side(a, b, c) != 0.0
    ensures FanCentroid([a, b, c]) == Ok(Vec2((a.x + b.x + c.x) / 3.0, (a.y + b.y + c.y) / 3.0))
  {
    var s := [a, b, c];
    var q := FanTerm(a, b, c);
    assert FanSums(s, 3) == (Vec2(0.0 + q.0.x, 0.0 + q.0.y), 0.0 + q.1);
    assert q.1 == Side(a, b, c);
    assert FanCentroid(s) == Ok(Vec2(q.0.x / (3.0 * q.1), q.0.y / (3.0 * q.1)));
    assert q.0 == Vec2((a.x + b.x + c.x) * q.1, (a.y + b.y + c.y) * q.1);
    TermCentroid(q, a.x + b.x + c.x, a.y + b.y + c.y);
  }

  /** A weighted sum of a point list over three times its weight is a third of the point sum. */
  lemma TermCentroid(q: (Vec2, real), sx: real, sy: real)
    requires q.1 != 0.0 && q.0 == Vec2(sx * q.1, sy * q.1)
    ensures Vec2(q.0.x / (3.0 * q.1), q.0.y / (3.0 * q.1)) == Vec2(sx / 3.0, sy / 3.0)
  {
    DivCancel(sx, q.1);
    DivCancel(sy, q.1);
  }

  lemma DivCancel(s: real, area: real)
    requires area != 0.0
    ensures (s * area) / (3.0 * area) == s / 3.0
  {
  }

  /**
   * Weighted term u is term s moved by t: the same area, and three times
   * t weighted by that area added to the weighted sum.
   */
  predicate Shifted(s: (Vec2, real), u: (Vec2, real), t: Vec2) {
    u.1 == s.1 && u.0 == Vec2(s.0.x + 3.0 * t.x * s.1, s.0.y + 3.0 * t.y * s.1)
  }

  /**
   * Moving the polygon leaves the areas alone and adds three times the
   * move, weighted by the area, to the sums.
   */
  lemma {:induction false} FanSumsTranslate(verts: seq<Vec2>, t: Vec2, k: nat)
    requires 2 <= k <= |verts|
    ensures Shifted(FanSums(verts, k), FanSums(Translate(verts, t), k), t)
    decreases k
  {
    if k > 2 {
      var vs := Translate(verts, t);
      FanSumsTranslate(verts, t, k - 1);
      assert vs[0] == Add(verts[0], t) && vs[k - 2] == Add(verts[k - 2], t) && vs[k - 1] == Add(verts[k - 1], t);
      FanTermTranslate(verts[0], verts[k - 2], verts[k - 1], t);
      ShiftedAdd(FanSums(verts, k - 1), FanTerm(verts[0], verts[k - 2], verts[k - 1]),
                 FanSums(vs, k - 1), FanTerm(vs[0], vs[k - 2], vs[k - 1]), t);
    }
  }

  /** Terms each shifted by t add up to their sum shifted by t. */
  lemma ShiftedAdd(p: (Vec2, real), q: (Vec2, real), p': (Vec2, real), q': (Vec2, real), t: Vec2)
    requires Shifted(p, p', t) && Shifted(q, q', t)
    ensures Shifted(AddTerms(p, q), AddTerms(p', q'), t)
  {
    Combine(p.0.x, p.1, q.0.x, q.1, t.x, p'.0.x, q'.0.x);
    Combine(p.0.y, p.1, q.0.y, q.1, t.y, p'.0.y, q'.0.y);
  }

  lemma Combine(p: real, pArea: real, q: real, qArea: real, t: real, p': real, q': real)
    requires p' == p + 3.0 * t * pArea && q' == q + 3.0 * t * qArea
    ensures p' + q' == (p + q) + 3.0 * t * (pArea + qArea)
  {
  }

  lemma FanTermTranslate(a: Vec2, b: Vec2, c: Vec2, t: Vec2)
    ensures Shifted(FanTerm(a, b, c), FanTerm(Add(a, t), Add(b, t), Add(c, t)), t)
  {
    SideTranslate(a, b, c, t);
    var area := Side(a, b, c);
    ShiftTerm(a.x, b.x, c.x, t.x, area);
    ShiftTerm(a.y, b.y, c.y, t.y, area);
  }

  lemma ShiftTerm(a: real, b: real, c: real, t: real, area: real)
    ensures (a + t + (b + t) + (c + t)) * area == (a + b + c) * area + 3.0 * t * area
  {
  }

  /** So the centroid moves with the polygon. */
  lemma {:induction false} FanCentroidTranslate(verts: seq<Vec2>, t: Vec2)
    requires 2 <= |verts|
    ensures FanCentroid(verts).Err? == FanCentroid(Translate(verts, t)).Err?
    ensures FanCentroid(verts).Ok? ==> FanCentroid(Translate(verts, t)) == Ok(Add(FanCentroid(verts).value, t))
  {
    FanSumsTranslate(verts, t, |verts|);
    var sums, sums' := FanSums(verts, |verts|), FanSums(Translate(verts, t), |verts|);
    if sums.1 != 0.0 {
      CentroidShift(sums, sums', t);
    }
  }

  /** Dividing shifted sums by their area moves the quotient by t. */
  lemma CentroidShift(s: (Vec2, real), u: (Vec2, real), t: Vec2)
    requires Shifted(s, u, t) && s.1 != 0.0
    ensures Vec2(u.0.x / (3.0 * u.1), u.0.y / (3.0 * u.1)) == Add(Vec2(s.0.x / (3.0 * s.1), s.0.y / (3.0 * s.1)), t)
  {
    ShiftDiv(s.0.x, t.x, s.1);
    ShiftDiv(s.0.y, t.y, s.1);
  }

  lemma ShiftDiv(s: real, t: real, total: real)
    requires total != 0.0
    ensures (s + 3.0 * t * total) / (3.0 * total) == s / (3.0 * total) + t
  {
  }

  // ---------------------------------------------------------------
  // Vertex triples (Poly_compare_eq, __eq__)
  // ---------------------------------------------------------------

  datatype Triple = Triple(prev: Vec2, cur: Vec2, next: Vec2)

  /** Vertex i with its two neighbours. */
  function TripleAt(verts: seq<Vec2>, i: nat): Triple
    requires i < |verts|
  {
    Triple(verts[Prev(i, |verts|)], verts[i], verts[Next(i, |verts|)])
  }

  function Triples(verts: seq<Vec2>): (r: seq<Triple>)
    ensures |r| == |verts|
    ensures forall i :: 0 <= i < |verts| ==> r[i] == TripleAt(verts, i)
  {
    seq(|verts|, i requires 0 <= i < |verts| => TripleAt(verts, i))
  }

  /** The triples read in the opposite winding: next, vertex, previous. */
  function Flip(t: Triple): Triple { Triple(t.next, t.cur, t.prev) }

  function FlippedTriples(verts: seq<Vec2>): (r: seq<Triple>)
    ensures |r| == |verts|
    ensures forall i :: 0 <= i < |verts| ==> r[i] == Flip(TripleAt(verts, i))
  {
    seq(|verts|, i requires 0 <= i < |verts| => Flip(TripleAt(verts, i)))
  }

  /**
   * Two polygons are the same shape when they have the same size and
   * either the same vertex list, or the same multiset of vertex triples in
   * the same or in the opposite winding.
   */
  predicate SameShape(a: seq<Vec2>, b: seq<Vec2>) {
    |a| == |b| &&
    (a == b || multiset(Triples(a)) == multiset(Triples(b)) || multiset(Triples(a)) == multiset(FlippedTriples(b)))
  }

  /** The vertex list started at vertex k instead of vertex 0. */
  function Rotate<T>(s: seq<T>, k: nat): (r: seq<T>)
    requires k < |s|
    ensures |r| == |s|
    ensures forall i :: 0 <= i < |s| ==> r[i] == s[if i + k < |s| then i + k else i + k - |s|]
  {
    seq(|s|, i requires 0 <= i < |s| => s[if i + k < |s| then i + k else i + k - |s|])
  }

  function Reverse<T>(s: seq<T>): (r: seq<T>)
    ensures |r| == |s|
    ensures forall i :: 0 <= i < |s| ==> r[i] == s[|s| - 1 - i]
  {
    seq(|s|, i requires 0 <= i < |s| => s[|s| - 1 - i])
  }

  lemma RotateMultiset<T>(s: seq<T>, k: nat)
    requires k < |s|
    ensures multiset(Rotate(s, k)) == multiset(s)
  {
    assert Rotate(s, k) == s[k..] + s[..k];
    assert s == s[..k] + s[k..];
  }

  lemma {:induction false} ReverseMultiset<T>(s: seq<T>)
    ensures multiset(Reverse(s)) == multiset(s)
    decreases |s|
  {
    if |s| > 0 {
      var t := s[1..];
      ReverseMultiset(t);
      assert Reverse(s) == Reverse(t) + [s[0]];
      assert s == [s[0]] + t;
    }
  }

  /** The triples of a rotated polygon are the rotated triples. */
  lemma TriplesRotate(verts: seq<Vec2>, k: nat)
    requires k < |verts|
    ensures Triples(Rotate(verts, k)) == Rotate(Triples(verts), k)
  {
    var n := |verts|;
    var r := Rotate(verts, k);
    forall i | 0 <= i < n
      ensures TripleAt(r, i) == TripleAt(verts, if i + k < n then i + k else i + k - n)
    {
      var j := if i + k < n then i + k else i + k - n;
      var jp := if Prev(i, n) + k < n then Prev(i, n) + k else Prev(i, n) + k - n;
      var jn := if Next(i, n) + k < n then Next(i, n) + k else Next(i, n) + k - n;
      assert jp == Prev(j, n);
      assert jn == Next(j, n);
    }
  }

  /** The flipped triples of the reversed polygon are its triples, reversed. */
  lemma FlippedTriplesReverse(verts: seq<Vec2>)
    ensures FlippedTriples(Reverse(verts)) == Reverse(Triples(verts))
  {
    var n := |verts|;
    var r := Reverse(verts);
    forall i | 0 <= i < n
      ensures Flip(TripleAt(r, i)) == TripleAt(verts, n - 1 - i)
    {
      assert n - 1 - Next(i, n) == Prev(n - 1 - i, n);
      assert n - 1 - Prev(i, n) == Next(n - 1 - i, n);
    }
  }

  /** Equality does not depend on the start vertex ... */
  lemma SameShapeRotate(verts: seq<Vec2>, k: nat)
    requires k < |verts|
    ensures SameShape(verts, Rotate(verts, k))
  {
    TriplesRotate(verts, k);
    RotateMultiset(Triples(verts), k);
  }

  /** ... nor on the winding direction. */
  lemma SameShapeReverse(verts: seq<Vec2>)
    ensures SameShape(verts, Reverse(verts))
  {
    FlippedTriplesReverse(verts);
    ReverseMultiset(Triples(verts));
  }

  // ---------------------------------------------------------------
  // Tangent scan (Poly_pt_tangents for non-convex polygons, _pt_tangents)
  // ---------------------------------------------------------------

  datatype Tangents = Tangents(left: Vec2, right: Vec2)

  /**
   * One vertex v0 of the scan, between edges prev -> v0 and v0 -> v1: where
   * pt's side flips from right to left v0 may become the right tangent,
   * and from left to right the left tangent.
   */
  function TangentStep(pt: Vec2, prev: Vec2, v0: Vec2, v1: Vec2, tan: Tangents): Tangents {
    var prevTurn, nextTurn := Side(prev, v0, pt), Side(v0, v1, pt);
    if prevTurn <= 0.0 && nextTurn > 0.0 then
      (if Side(pt, v0, tan.right) >= 0.0 then tan.(right := v0) else tan)
    else if prevTurn > 0.0 && nextTurn <= 0.0 then
      (if Side(pt, v0, tan.left) <= 0.0 then tan.(left := v0) else tan)
    else tan
  }

  /**
   * The scan over the vertices before vertex k: step j looks at vertex
   * j - 1 (the last vertex first), starting with both tangents at vertex 0.
   * Both tangents are always vertices.
   */
  function TangentsPrefix(verts: seq<Vec2>, pt: Vec2, k: nat): (r: Tangents)
    requires 2 <= |verts| && k <= |verts|
    ensures exists i :: 0 <= i < |verts| && verts[i] == r.left
    ensures exists i :: 0 <= i < |verts| && verts[i] == r.right
  {
    if k == 0 then Tangents(verts[0], verts[0])
    else
      var n := |verts|;
      var j := k - 1;
      var v0 := Prev(j, n);
      var tan := TangentsPrefix(verts, pt, j);
      var r := TangentStep(pt, verts[Prev(v0, n)], verts[v0], verts[j], tan);
      assert r.left == tan.left || r.left == verts[v0];
      assert r.right == tan.right || r.right == verts[v0];
      r
  }

  function TangentsOf(verts: seq<Vec2>, pt: Vec2): Tangents
    requires 2 <= |verts|
  {
    TangentsPrefix(verts, pt, |verts|)
  }

  /** pt is left of the edge out of vertex i and not of the edge into it. */
  predicate RightTurnAt(verts: seq<Vec2>, pt: Vec2, i: nat)
    requires i < |verts|
  {
    var n := |verts|;
    Side(verts[Prev(i, n)], verts[i], pt) <= 0.0 && Side(verts[i], verts[Next(i, n)], pt) > 0.0
  }

  /** pt is left of the edge into vertex i and not of the edge out of it. */
  predicate LeftTurnAt(verts: seq<Vec2>, pt: Vec2, i: nat)
    requires i < |verts|
  {
    var n := |verts|;
    Side(verts[Prev(i, n)], verts[i], pt) > 0.0 && Side(verts[i], verts[Next(i, n)], pt) <= 0.0
  }

  /**
   * What the scan keeps: a tangent that has moved off vertex 0 sits at a
   * vertex where pt's side of the boundary flips the matching way, so a
   * polygon without such a vertex answers vertex 0 for that tangent.
   */
  lemma {:induction false} TangentsAreTurns(verts: seq<Vec2>, pt: Vec2, k: nat)
    requires 2 <= |verts| && k <= |verts|
    ensures var r := TangentsPrefix(verts, pt, k);
      r.right == verts[0] || exists i :: 0 <= i < |verts| && verts[i] == r.right && RightTurnAt(verts, pt, i)
    ensures var r := TangentsPrefix(verts, pt, k);
      r.left == verts[0] || exists i :: 0 <= i < |verts| && verts[i] == r.left && LeftTurnAt(verts, pt, i)
  {
    if k > 0 {
      var n := |verts|;
      var j := k - 1;
      var v0 := Prev(j, n);
      TangentsAreTurns(verts, pt, j);
      assert Next(v0, n) == j;
      var tan := TangentsPrefix(verts, pt, j);
      var r := TangentsPrefix(verts, pt, k);
      assert r == TangentStep(pt, verts[Prev(v0, n)], verts[v0], verts[j], tan);
      if r.right != tan.right {
        assert RightTurnAt(verts, pt, v0);
      }
      if r.left != tan.left {
        assert LeftTurnAt(verts, pt, v0);
      }
    }
  }
}

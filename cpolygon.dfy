/**
 * The C polygon object of cpolygon.c: a vertex buffer with a slot of
 * padding at each end, flag bits caching what has been worked out about
 * the polygon, a cached centroid, bounding box and y-monotone split, and
 * the operations that fill and clear those caches.
 */
module CPolygon {
  import opened Wrappers
  import opened Planar
  import opened PolySpec
  import opened Classify
  import opened YChains
  import Sweep
  import CHull
  import PyBox

  /** The flag bits of planar.h, one boolean per POLY_*_FLAG. */
  datatype Flags = Flags(convexKnown: bool, convex: bool, simpleKnown: bool, simple: bool,
                         degenKnown: bool, degen: bool, dupKnown: bool, dup: bool,
                         centroidKnown: bool, radiusKnown: bool)

  /**
   * The radius shortcut of Poly_contains_point decides: both caches are
   * known and pt is nearer than the inner radius or beyond the outer one.
   */
  predicate RadiusAnswers(f: Flags, c: Vec2, minR2: real, maxR2: real, pt: Vec2) {
    f.radiusKnown && f.centroidKnown && (Dist2(c, pt) < minR2 || Dist2(c, pt) > maxR2)
  }

  /** The squared distance Poly_contains_point compares with the radii. */
  function Dist2(c: Vec2, pt: Vec2): real {
    (pt.x - c.x) * (pt.x - c.x) + (pt.y - c.y) * (pt.y - c.y)
  }

  const NoFlags := Flags(false, false, false, false, false, false, false, false, false, false)

  /** POLY_CONVEX_FLAG | POLY_CONVEX_KNOWN_FLAG | POLY_SIMPLE_FLAG | POLY_SIMPLE_KNOWN_FLAG */
  const ConvexFlags := NoFlags.(convexKnown := true, convex := true, simpleKnown := true, simple := true)

  /** POLY_SIMPLE_FLAG | POLY_SIMPLE_KNOWN_FLAG */
  const SimpleFlags := NoFlags.(simpleKnown := true, simple := true)

  /** The flags Poly_create_new starts a polygon with. */
  function InitialFlags(size: nat, isConvex: bool, isSimple: bool): Flags {
    if isConvex || size == 3 then ConvexFlags
    else if isSimple then SimpleFlags
    else NoFlags
  }

  /** A triangle, or a polygon declared convex, starts known convex and simple. */
  lemma InitialFlagsConvex(size: nat, isConvex: bool, isSimple: bool)
    ensures var f := InitialFlags(size, isConvex, isSimple);
      (isConvex || size == 3 ==> f.convexKnown && f.convex && f.simpleKnown && f.simple) &&
      (!isConvex && size != 3 ==> !f.convexKnown && f.simpleKnown == isSimple && f.simple == isSimple) &&
      !f.centroidKnown && !f.radiusKnown
  {
  }

  /** The bits Poly_classify sets and clears after its scan s. */
  function ClassifiedFlags(f: Flags, s: Scan, size: nat): Flags {
    var g := if IsConvex(s)
      then f.(convexKnown := true, convex := true, simpleKnown := true, simple := true,
              dupKnown := true, dup := s.count < size)
      else f.(convexKnown := true, convex := false);
    g.(degenKnown := true, degen := CDegenerate(s))
  }

  /**
   * Classification decides convexity, records degeneracy, and a convex
   * verdict also makes the polygon known simple; the other bits stay.
   */
  lemma ClassifiedFlagsSay(f: Flags, s: Scan, size: nat)
    ensures var g := ClassifiedFlags(f, s, size);
      g.convexKnown && g.convex == IsConvex(s) && g.degenKnown && g.degen == (s.count == 0 || s.side == 0.0) &&
      (IsConvex(s) ==> g.simpleKnown && g.simple && g.dupKnown && g.dup == (s.count < size)) &&
      (!IsConvex(s) ==> g.simpleKnown == f.simpleKnown && g.simple == f.simple && g.dupKnown == f.dupKnown && g.dup == f.dup) &&
      g.centroidKnown == f.centroidKnown && g.radiusKnown == f.radiusKnown
  {
  }

  /** What poly_is_convex answers from flags f: the cached bit, or the scan's verdict. */
  function ConvexAfter(f: Flags, verts: seq<Vec2>): bool {
    if f.convexKnown then f.convex else IsConvex(CScan(verts))
  }

  /**
   * What Poly_get_is_simple answers from flags f: the cached bit; else a
   * convex classification; else the self-intersection test.
   */
  function SimpleAfter(f: Flags, verts: seq<Vec2>): bool {
    if f.simpleKnown then f.simple
    else if !f.convexKnown && IsConvex(CScan(verts)) then true
    else IsSimpleSpec(verts)
  }

  /**
   * The simplicity Poly_get_centroid goes by from flags f: the cached bit
   * when the centroid is cached too; otherwise a classification run while
   * convexity is unknown, whose convex verdict sets the simple bit; then
   * the cached bit, or the self-intersection test.
   */
  function CentroidSimple(f: Flags, verts: seq<Vec2>): bool {
    if f.centroidKnown && f.simpleKnown then f.simple
    else if !f.convexKnown && IsConvex(CScan(verts)) then true
    else if f.simpleKnown then f.simple
    else IsSimpleSpec(verts)
  }

  /** The forward copy loop of split_y_polylines: src[lo .. hi) to buf[p ..). */
  method CopyForward(buf: array<Vec2>, p: nat, src: seq<Vec2>, lo: nat, hi: nat)
    requires lo <= hi <= |src| && p + (hi - lo) <= buf.Length
    modifies buf
    ensures forall t :: p <= t < p + (hi - lo) ==> buf[t] == src[lo + (t - p)]
    ensures forall t :: 0 <= t < buf.Length && !(p <= t < p + (hi - lo)) ==> buf[t] == old(buf[t])
  {
    var v := lo;
    while v < hi
      invariant lo <= v <= hi
      invariant forall t :: p <= t < p + (v - lo) ==> buf[t] == src[lo + (t - p)]
      invariant forall t :: 0 <= t < buf.Length && !(p <= t < p + (v - lo)) ==> buf[t] == old(buf[t])
    {
      buf[p + (v - lo)] := src[v];
      v := v + 1;
    }
  }

  /** The backward copy loop of split_y_polylines: src[hi - 1] down to src[lo] into buf[p ..). */
  method CopyBackward(buf: array<Vec2>, p: nat, src: seq<Vec2>, lo: nat, hi: nat)
    requires lo <= hi <= |src| && p + (hi - lo) <= buf.Length
    modifies buf
    ensures forall t :: p <= t < p + (hi - lo) ==> buf[t] == src[hi - 1 - (t - p)]
    ensures forall t :: 0 <= t < buf.Length && !(p <= t < p + (hi - lo)) ==> buf[t] == old(buf[t])
  {
    var v := hi;
    while v > lo
      invariant lo <= v <= hi
      invariant forall t :: p <= t < p + (hi - v) ==> buf[t] == src[hi - 1 - (t - p)]
      invariant forall t :: 0 <= t < buf.Length && !(p <= t < p + (hi - v)) ==> buf[t] == old(buf[t])
    {
      buf[p + (hi - v)] := src[v - 1];
      v := v - 1;
    }
  }

  /** The three copy loops when the lowest vertex comes before the highest. */
  method LayOutRising(verts: seq<Vec2>, e: Ext, buf: array<Vec2>, o1: nat, o2: nat)
    requires e.min < e.max < |verts| && buf.Length == |verts| + 2
    requires var l1 := e.max - e.min + 1;
      (o1 == 0 && o2 == l1) || (o2 == 0 && o1 == |verts| + 2 - l1)
    modifies buf
    ensures forall t :: o1 <= t < o1 + |Pl1(verts, e)| ==> buf[t] == Pl1(verts, e)[t - o1]
    ensures forall t :: o2 <= t < o2 + |Pl2(verts, e)| ==> buf[t] == Pl2(verts, e)[t - o2]
  {
    var n := |verts|;
    PolylinesEnds(verts, e);
    CopyForward(buf, o1, verts, e.min, e.max + 1);
    CopyBackward(buf, o2, verts, 0, e.min + 1);
    CopyBackward(buf, o2 + e.min + 1, verts, e.max, n);
    ghost var p2 := Pl2(verts, e);
    assert p2 == Reverse(verts[..e.min + 1]) + Reverse(verts[e.max..]);
    forall t | o2 <= t < o2 + |p2|
      ensures buf[t] == p2[t - o2]
    {
      if t < o2 + e.min + 1 {
        assert p2[t - o2] == Reverse(verts[..e.min + 1])[t - o2];
      } else {
        assert p2[t - o2] == Reverse(verts[e.max..])[t - o2 - (e.min + 1)];
      }
    }
  }

  /** The three copy loops when the lowest vertex comes at or after the highest. */
  method LayOutFalling(verts: seq<Vec2>, e: Ext, buf: array<Vec2>, o1: nat, o2: nat)
    requires e.max <= e.min < |verts| && buf.Length == |verts| + 2
    requires var l1 := e.min - e.max + 1;
      (o1 == 0 && o2 == l1) || (o2 == 0 && o1 == |verts| + 2 - l1)
    modifies buf
    ensures forall t :: o1 <= t < o1 + |Pl1(verts, e)| ==> buf[t] == Pl1(verts, e)[t - o1]
    ensures forall t :: o2 <= t < o2 + |Pl2(verts, e)| ==> buf[t] == Pl2(verts, e)[t - o2]
  {
    var n := |verts|;
    PolylinesEnds(verts, e);
    CopyBackward(buf, o1, verts, e.max, e.min + 1);
    CopyForward(buf, o2, verts, e.min, n);
    CopyForward(buf, o2 + (n - e.min), verts, 0, e.max + 1);
    ghost var p2 := Pl2(verts, e);
    assert p2 == verts[e.min..] + verts[..e.max + 1];
    forall t | o2 <= t < o2 + |p2|
      ensures buf[t] == p2[t - o2]
    {
      if t < o2 + (n - e.min) {
        assert p2[t - o2] == verts[e.min..][t - o2];
      } else {
        assert p2[t - o2] == verts[..e.max + 1][t - o2 - (n - e.min)];
      }
    }
  }

  /**
   * The copy half of split_y_polylines: the two polylines of e laid out
   * in buf, the left one first.
   */
  method LayOutPolylines(verts: seq<Vec2>, e: Ext, buf: array<Vec2>)
    requires e.min < |verts| && e.max < |verts| && buf.Length == |verts| + 2
    modifies buf
    ensures buf[..] == if Pl1IsLeft(e) then Pl1(verts, e) + Pl2(verts, e) else Pl2(verts, e) + Pl1(verts, e)
  {
    var n := |verts|;
    PolylinesEnds(verts, e);
    ghost var p1, p2 := Pl1(verts, e), Pl2(verts, e);
    var len1 := if e.min < e.max then e.max - e.min + 1 else e.min - e.max + 1;
    var o1, o2 := 0, 0;
    if Pl1IsLeft(e) {
      o2 := len1;
    } else {
      o1 := n + 2 - len1;
    }
    if e.min < e.max {
      LayOutRising(verts, e, buf, o1, o2);
    } else {
      LayOutFalling(verts, e, buf, o1, o2);
    }
    if Pl1IsLeft(e) {
      assert buf[..] == p1 + p2;
    } else {
      assert buf[..] == p2 + p1;
    }
  }

  /**
   * The buffer split_y_polylines allocates, with the polylines of the
   * extremes e laid out in it, and the offset of the right polyline.
   */
  method NewPolylines(verts: seq<Vec2>, e: Ext) returns (buf: array<Vec2>, rt: nat)
    requires 1 <= |verts| && e == Extremes(verts)
    ensures fresh(buf) && buf[..] == LeftChain(verts) + RightChain(verts) && rt == |LeftChain(verts)|
  {
    PolylinesEnds(verts, e);
    var len1 := if e.min < e.max then e.max - e.min + 1 else e.min - e.max + 1;
    rt := if Pl1IsLeft(e) then len1 else |verts| + 2 - len1;
    buf := new Vec2[|verts| + 2](_ => Vec2(0.0, 0.0));
    LayOutPolylines(verts, e, buf);
  }

  // ---------------------------------------------------------------
  // The triple order of Poly_compare_eq
  // ---------------------------------------------------------------

  /** compare_vec_triples: previous vertex, then vertex, then next, each by compare_vec_lexi. */
  function CompareTriple(a: Triple, b: Triple): (r: int)
    ensures -1 <= r <= 1
  {
    var c0 := CompareLexi(a.prev, b.prev);
    if c0 != 0 then c0
    else
      var c1 := CompareLexi(a.cur, b.cur);
      if c1 != 0 then c1 else CompareLexi(a.next, b.next)
  }

  /** compare_vec_triples_reverse: the same order on the triples read the other way round. */
  function CompareTripleReverse(a: Triple, b: Triple): int {
    CompareTriple(Flip(a), Flip(b))
  }

  /** The triple comparator is a total order: zero exactly on equal triples, antisymmetric, transitive. */
  lemma CompareTripleOrder(a: Triple, b: Triple)
    ensures CompareTriple(a, b) == 0 <==> a == b
    ensures CompareTriple(a, b) == -CompareTriple(b, a)
  {
    CompareLexiOrder(a.prev, b.prev);
    CompareLexiOrder(a.cur, b.cur);
    CompareLexiOrder(a.next, b.next);
    CompareLexiAntisymmetric(a.prev, b.prev);
    CompareLexiAntisymmetric(a.cur, b.cur);
    CompareLexiAntisymmetric(a.next, b.next);
  }

  lemma CompareTripleTransitive(a: Triple, b: Triple, c: Triple)
    requires CompareTriple(a, b) <= 0 && CompareTriple(b, c) <= 0
    ensures CompareTriple(a, c) <= 0
  {
    CompareLexiOrder(a.prev, b.prev);
    CompareLexiOrder(b.prev, c.prev);
    CompareLexiOrder(a.prev, c.prev);
    CompareLexiOrder(a.cur, b.cur);
    CompareLexiOrder(b.cur, c.cur);
    CompareLexiOrder(a.cur, c.cur);
    CompareLexiOrder(a.next, b.next);
    CompareLexiOrder(b.next, c.next);
    CompareLexiOrder(a.next, c.next);
  }

  /** What qsort leaves behind with compare_vec_triples. */
  predicate SortedTriples(s: seq<Triple>) {
    forall i, j :: 0 <= i < j < |s| ==> CompareTriple(s[i], s[j]) <= 0
  }

  /** What qsort leaves behind with compare_vec_triples_reverse. */
  predicate SortedTriplesReverse(s: seq<Triple>) {
    forall i, j :: 0 <= i < j < |s| ==> CompareTripleReverse(s[i], s[j]) <= 0
  }

  /** A sorted list starts with a least element. */
  lemma SortedFirstLeast(a: seq<Triple>, i: nat)
    requires SortedTriples(a) && i < |a|
    ensures CompareTriple(a[0], a[i]) <= 0
  {
    if i == 0 {
      CompareTripleOrder(a[0], a[0]);
    }
  }

  /** Two sorted lists of the same triples start with the same one. */
  lemma SortedSameFirst(a: seq<Triple>, b: seq<Triple>)
    requires SortedTriples(a) && SortedTriples(b) && multiset(a) == multiset(b) && 0 < |a|
    ensures 0 < |b| && a[0] == b[0]
  {
    assert a[0] in multiset(b);
    var j :| 0 <= j < |b| && b[j] == a[0];
    assert b[0] in multiset(a);
    var i :| 0 <= i < |a| && a[i] == b[0];
    SortedFirstLeast(a, i);
    SortedFirstLeast(b, j);
    CompareTripleOrder(a[0], b[0]);
  }

  /** Lists with the same elements and the same first one have the same rest. */
  lemma TailMultiset<T>(a: seq<T>, b: seq<T>)
    requires multiset(a) == multiset(b) && 0 < |a| && 0 < |b| && a[0] == b[0]
    ensures multiset(a[1..]) == multiset(b[1..])
  {
    assert a == [a[0]] + a[1..];
    assert b == [b[0]] + b[1..];
    forall t
      ensures multiset(a[1..])[t] == multiset(b[1..])[t]
    {
      assert multiset(a)[t] == multiset{a[0]}[t] + multiset(a[1..])[t];
      assert multiset(b)[t] == multiset{a[0]}[t] + multiset(b[1..])[t];
    }
  }

  lemma SortedTail(a: seq<Triple>)
    requires SortedTriples(a) && 0 < |a|
    ensures SortedTriples(a[1..])
  {
    forall i, j | 0 <= i < j < |a| - 1
      ensures CompareTriple(a[1..][i], a[1..][j]) <= 0
    {
      assert a[1..][i] == a[i + 1] && a[1..][j] == a[j + 1];
    }
  }

  /** Two sorted lists of the same triples are the same list, so comparing them slot by slot decides multiset equality. */
  lemma {:induction false} SortedUnique(a: seq<Triple>, b: seq<Triple>)
    requires SortedTriples(a) && SortedTriples(b) && multiset(a) == multiset(b)
    ensures a == b
    decreases |a|
  {
    if |a| == 0 {
      assert |multiset(b)| == 0;
    } else {
      SortedSameFirst(a, b);
      TailMultiset(a, b);
      SortedTail(a);
      SortedTail(b);
      SortedUnique(a[1..], b[1..]);
      assert a == [a[0]] + a[1..];
      assert b == [b[0]] + b[1..];
    }
  }

  /** Every triple of s read the other way round. */
  function FlipAll(s: seq<Triple>): (r: seq<Triple>)
    ensures |r| == |s| && forall i :: 0 <= i < |s| ==> r[i] == Flip(s[i])
  {
    seq(|s|, i requires 0 <= i < |s| => Flip(s[i]))
  }

  /** Flipping counts: a triple occurs in the flipped list as often as its flip occurs in the list. */
  lemma {:induction false} FlipAllCount(s: seq<Triple>, t: Triple)
    ensures multiset(FlipAll(s))[t] == multiset(s)[Flip(t)]
    decreases |s|
  {
    if |s| > 0 {
      var k := |s| - 1;
      FlipAllCount(s[..k], t);
      assert FlipAll(s) == FlipAll(s[..k]) + [Flip(s[k])];
      assert s == s[..k] + [s[k]];
      assert Flip(Flip(s[k])) == s[k];
    }
  }

  lemma FlipAllMultiset(s: seq<Triple>, u: seq<Triple>)
    requires multiset(s) == multiset(u)
    ensures multiset(FlipAll(s)) == multiset(FlipAll(u))
  {
    forall t
      ensures multiset(FlipAll(s))[t] == multiset(FlipAll(u))[t]
    {
      FlipAllCount(s, t);
      FlipAllCount(u, t);
    }
  }

  /** A list sorted by the reversed comparator, read the other way round, is sorted by the plain one. */
  lemma FlipAllSorted(s: seq<Triple>)
    requires SortedTriplesReverse(s)
    ensures SortedTriples(FlipAll(s))
  {
  }

  /**
   * The first loop of Poly_compare_eq as written: a_end is advanced with
   * a_vert and b_vert never moves, so from slot k on it compares each slot
   * of a's buffer with b's first vertex and stops only at one that
   * differs; None is a read past the end of the buffer.
   */
  function FastLoopAsWritten(aData: seq<Vec2>, b0: Vec2, k: nat): (r: Option<nat>)
    ensures r.Some? ==> (k <= r.value < |aData| && aData[r.value] != b0 &&
      forall i :: k <= i < r.value ==> aData[i] == b0)
    ensures r.None? ==> forall i :: k <= i < |aData| ==> aData[i] == b0
    decreases |aData| - k
  {
    if k >= |aData| then None
    else if aData[k] != b0 then Some(k)
    else FastLoopAsWritten(aData, b0, k + 1)
  }

  /**
   * So the loop never reports the vertex lists identical: it either stops
   * at a mismatch, setting is_equal to 0, or runs off the buffer, as it
   * does for two distinct all-zero triangles.
   */
  lemma FastLoopNeverConfirms(aData: seq<Vec2>, b0: Vec2)
    ensures FastLoopAsWritten(aData, b0, 1).Some? ==> aData[FastLoopAsWritten(aData, b0, 1).value] != b0
    ensures FastLoopAsWritten(seq(5, _ => Vec2(0.0, 0.0)), Vec2(0.0, 0.0), 1).None?
  {
  }

  /** The memcpy of a cached split into a fresh buffer. */
  method CopyOfBuffer(src: Option<array<Vec2>>) returns (r: Option<array<Vec2>>)
    ensures r.Some? <==> src.Some?
    ensures r.Some? ==> fresh(r.value) && r.value[..] == src.value[..]
  {
    if src.None? {
      return None;
    }
    var buf := new Vec2[src.value.Length](_ => Vec2(0.0, 0.0));
    CopyForward(buf, 0, src.value[..], 0, src.value.Length);
    assert buf[..] == src.value[..];
    return Some(buf);
  }

  // ---------------------------------------------------------------
  // The one-vertex left polyline of a flat polygon
  // ---------------------------------------------------------------

  /** Six collinear vertices along the x axis. */
  const FlatHexagon: seq<Vec2> :=
    [Vec2(0.0, 0.0), Vec2(1.0, 0.0), Vec2(2.0, 0.0), Vec2(3.0, 0.0), Vec2(4.0, 0.0), Vec2(5.0, 0.0)]

  const FlatHexagonEdges: seq<Vec2> :=
    [Vec2(1.0, 0.0), Vec2(1.0, 0.0), Vec2(1.0, 0.0), Vec2(1.0, 0.0), Vec2(1.0, 0.0), Vec2(-5.0, 0.0)]

  /** Every turn of the flat hexagon is zero and its edges reverse twice, so the scan calls it convex. */
  lemma FlatHexagonConvex(es: seq<Vec2>)
    requires es == FlatHexagonEdges
    ensures IsConvex(Run(Start(LastNonZero(es)), es, CRules))
  {
    var s0 := Start(es[5]);
    assert LastNonZero(es) == es[5];
    var s1 := Step(s0, es[0], CRules);
    assert s1 == Scan(es[0], -1, 1, 1, true, 0.0, 0.0);
    var s2 := Step(s1, es[1], CRules);
    assert s2 == Scan(es[1], -1, 1, 2, true, 0.0, 0.0);
    var s3 := Step(s2, es[2], CRules);
    assert s3 == Scan(es[2], -1, 1, 3, true, 0.0, 0.0);
    var s4 := Step(s3, es[3], CRules);
    assert s4 == Scan(es[3], -1, 1, 4, true, 0.0, 0.0);
    var s5 := Step(s4, es[4], CRules);
    assert s5 == Scan(es[4], -1, 1, 5, true, 0.0, 0.0);
    var s6 := Step(s5, es[5], CRules);
    assert s6 == Scan(es[5], 1, 2, 6, true, 0.0, 0.0);
    RunPrefixStep(s0, es, 0, CRules);
    RunPrefixStep(s0, es, 1, CRules);
    RunPrefixStep(s0, es, 2, CRules);
    RunPrefixStep(s0, es, 3, CRules);
    RunPrefixStep(s0, es, 4, CRules);
    RunPrefixStep(s0, es, 5, CRules);
    assert es[..6] == es;
  }

  /**
   * The flat hexagon is classified convex and has more than five
   * vertices, so contains_point sends it to the y-monotone test; its
   * lowest and highest vertex are both vertex 0, so the left polyline is
   * that one vertex, and for a point at its height ChainTestAsWritten
   * reads before the buffer.
   */
  lemma FlatHexagonAsWritten()
    ensures IsConvex(CScan(FlatHexagon)) && |FlatHexagon| > 5
    ensures |LeftChain(FlatHexagon)| == 1
    ensures (LeftChain(FlatHexagon) + RightChain(FlatHexagon))[0].y == 0.0
  {
    var es := EdgeVecs(FlatHexagon);
    assert es == FlatHexagonEdges;
    FlatHexagonConvex(es);
    FlatHexagonExtremes();
    var e := Ext(0, 0, 0, 5);
    assert Pl1IsLeft(e);
    assert LeftChain(FlatHexagon) == Pl1(FlatHexagon, e) == Reverse(FlatHexagon[0..1]);
  }

  lemma FlatHexagonExtremes()
    ensures Extremes(FlatHexagon) == Ext(0, 0, 0, 5)
  {
    assert ExtremesOf(FlatHexagon, 2) == Ext(0, 0, 0, 1);
    assert ExtremesOf(FlatHexagon, 3) == Ext(0, 0, 0, 2);
    assert ExtremesOf(FlatHexagon, 4) == Ext(0, 0, 0, 3);
    assert ExtremesOf(FlatHexagon, 5) == Ext(0, 0, 0, 4);
  }

  /**
   * The corrected test answers outside for a one-vertex left polyline,
   * and so does the winding number: every vertex is then at one height,
   * and no edge crosses any point's horizontal.
   */
  lemma OneVertexChainOutside(verts: seq<Vec2>, pt: Vec2)
    requires 1 <= |verts| && |LeftChain(verts)| == 1
    ensures WindingNumber(verts, pt) == 0
  {
    SingleVertexChainIsFlat(verts);
    WindingOutsideSlab(verts, pt, |verts|);
  }

  class Polygon {
    /** Py_SIZE: the number of vertices. */
    const size: nat
    /**
     * The size + 2 slots Poly_new allocates; vertex i is data[i + 1], and
     * DUP_FIRST_VERT and DUP_LAST_VERT copy the first vertex to
     * data[size + 1] and the last one to data[0].
     */
    const data: array<Vec2>
    var flags: Flags
    var centroid: Vec2
    var minR2: real
    var maxR2: real
    var bbox: Option<BBox>
    /** lt_y_poly, and the offset of rt_y_poly in it. */
    var yPoly: Option<array<Vec2>>
    var rt: nat

    /** The vertices, self->vert[0 .. size). */
    function Verts(): (r: seq<Vec2>)
      requires data.Length == size + 2
      reads data
      ensures |r| == size
    {
      data[1..size + 1]
    }

    function YReads(): set<object>
      reads this
    {
      if yPoly.Some? then {yPoly.value} else {}
    }

    /**
     * At least three vertices; a known-convex polygon is known simple; a
     * centroid is cached only once convexity and simplicity are known,
     * and then it is the fan centroid; a cached box encloses the
     * vertices; a cached split holds the two y-monotone polylines.
     */
    ghost predicate Valid()
      reads this, data, YReads()
    {
      data.Length == size + 2 && size >= 3 &&
      (flags.convexKnown && flags.convex ==> flags.simpleKnown && flags.simple) &&
      (flags.centroidKnown ==> flags.convexKnown && flags.simpleKnown) &&
      (flags.centroidKnown && flags.simple ==> FanCentroid(Verts()) == Ok(centroid)) &&
      (bbox.Some? ==> Encloses(bbox.value, Verts())) &&
      (yPoly.Some? ==>
         yPoly.value != data &&
         yPoly.value[..] == LeftChain(Verts()) + RightChain(Verts()) && rt == |LeftChain(Verts())|)
    }

    /** Poly_new: size + 2 zeroed slots, no flags, nothing cached. */
    constructor Alloc(n: nat)
      requires n >= 3
      ensures Valid() && fresh(data)
      ensures size == n && data[..] == seq(n + 2, _ => Vec2(0.0, 0.0))
      ensures flags == NoFlags && bbox.None? && yPoly.None?
    {
      size := n;
      data := new Vec2[n + 2](_ => Vec2(0.0, 0.0));
      flags := NoFlags;
      centroid := Vec2(0.0, 0.0);
      minR2, maxR2 := 0.0, 0.0;
      bbox := None;
      yPoly := None;
      rt := 0;
    }

    /** Poly_new: fewer than three vertices is a ValueError, else a fresh zeroed polygon. */
    static method PolyNew(n: int) returns (r: Result<Polygon>)
      ensures n < 3 <==> r == Err(ValueError)
      ensures n >= 3 <==> r.Ok?
      ensures r.Ok? ==>
        fresh(r.value) && fresh(r.value.data) && r.value.Valid() && r.value.size == n &&
        r.value.data[..] == seq(n + 2, _ => Vec2(0.0, 0.0)) &&
        r.value.flags == NoFlags && r.value.bbox.None? && r.value.yPoly.None?
    {
      if n < 3 {
        return Err(ValueError);
      }
      var poly := new Polygon.Alloc(n);
      return Ok(poly);
    }

    /**
     * Poly_create_new.  Fewer than three vertices is a ValueError; an item
     * that is not a vector (None here) a TypeError.  A triangle or a
     * polygon declared convex starts known convex and simple, one declared
     * simple known simple.
     */
    static method New(points: seq<Option<Vec2>>, isConvex: bool, isSimple: bool) returns (r: Result<Polygon>)
      ensures |points| < 3 ==> r == Err(ValueError)
      ensures |points| >= 3 ==>
        (r.Ok? <==> forall i :: 0 <= i < |points| ==> points[i].Some?) &&
        (r.Err? ==> r.error == TypeError)
      ensures r.Ok? ==>
        fresh(r.value) && fresh(r.value.data) && r.value.Valid() && r.value.size == |points| &&
        (forall i :: 0 <= i < |points| ==> points[i] == Some(r.value.Verts()[i])) &&
        r.value.flags == InitialFlags(|points|, isConvex, isSimple) && r.value.bbox.None? && r.value.yPoly.None?
    {
      var made := PolyNew(|points|);
      if made.Err? {
        return Err(made.error);
      }
      var poly := made.value;
      poly.flags := InitialFlags(|points|, isConvex, isSimple);
      var i := 0;
      while i < |points|
        invariant 0 <= i <= |points|
        invariant poly.Valid() && poly.flags == InitialFlags(|points|, isConvex, isSimple)
        invariant poly.bbox.None? && poly.yPoly.None?
        invariant forall k :: 0 <= k < i ==> points[k] == Some(poly.data[k + 1])
        invariant forall k :: 0 <= k < i ==> points[k].Some?
        modifies poly.data
      {
        if points[i].None? {
          return Err(TypeError);
        }
        poly.data[i + 1] := points[i].value;
        i := i + 1;
      }
      return Ok(poly);
    }

    /** Poly_getitem: the vertex at index, or IndexError outside [0, size). */
    method GetItem(index: int) returns (r: Result<Vec2>)
      requires Valid()
      ensures 0 <= index < size ==> r == Ok(Verts()[index])
      ensures !(0 <= index < size) ==> r == Err(IndexError)
    {
      if 0 <= index < size {
        return Ok(data[index + 1]);
      }
      return Err(IndexError);
    }

    /** clear_cached_properties: every flag off, the box and the split dropped. */
    method ClearCachedProperties()
      requires data.Length == size + 2 && size >= 3
      modifies this
      ensures Valid()
      ensures flags == NoFlags && bbox.None? && yPoly.None?
      ensures centroid == old(centroid) && minR2 == old(minR2) && maxR2 == old(maxR2) && rt == old(rt)
    {
      flags := NoFlags;
      bbox := None;
      yPoly := None;
    }

    /**
     * Poly_assitem: outside [0, size) an IndexError, a value that is not a
     * vector a TypeError, and either way nothing changes; otherwise the
     * vertex is replaced and every cached property cleared.
     */
    method SetItem(index: int, v: Option<Vec2>) returns (err: Option<Error>)
      requires Valid()
      modifies this, data
      ensures Valid()
      ensures !(0 <= index < size) ==> err == Some(IndexError)
      ensures 0 <= index < size && v.None? ==> err == Some(TypeError)
      ensures err.Some? ==>
        data[..] == old(data[..]) && flags == old(flags) && bbox == old(bbox) && yPoly == old(yPoly)
      ensures err.None? <==> 0 <= index < size && v.Some?
      ensures err.None? ==>
        Verts() == old(Verts())[index := v.value] && flags == NoFlags && bbox.None? && yPoly.None?
    {
      if 0 <= index < size {
        if v.None? {
          return Some(TypeError);
        }
        ghost var before := Verts();
        data[index + 1] := v.value;
        assert Verts() == before[index := v.value];
        ClearCachedProperties();
        return None;
      }
      return Some(IndexError);
    }

    /** DUP_FIRST_VERT: the slot after the last vertex gets a copy of the first. */
    method DupFirst()
      requires Valid()
      modifies data
      ensures Valid()
      ensures data[..] == old(data[..])[size + 1 := data[1]]
      ensures Verts() == old(Verts())
    {
      ghost var before := Verts();
      data[size + 1] := data[1];
      assert Verts() == before;
    }

    /** DUP_LAST_VERT: the slot before the first vertex gets a copy of the last. */
    method DupLast()
      requires Valid()
      modifies data
      ensures Valid()
      ensures data[..] == old(data[..])[0 := data[size]]
      ensures Verts() == old(Verts())
    {
      ghost var before := Verts();
      data[0] := data[size];
      assert Verts() == before;
    }

    /**
     * The scan loop of Poly_classify over the edges vert[i + 1] - vert[i],
     * with the first vertex duplicated after the last, started on the
     * last non-zero edge.
     */
    method ScanEdges() returns (s: Scan)
      requires data.Length == size + 2 && size >= 3 && data[size + 1] == data[1]
      ensures s == CScan(Verts())
    {
      ghost var verts := Verts();
      ghost var es := EdgeVecs(verts);
      assert forall k :: 0 <= k < size ==> Sub(data[k + 2], data[k + 1]) == es[k];
      assert es[..size] == es;
      // the last non-zero edge, taken as the one before the first
      var j := size;
      while j > 0 && Sub(data[j + 1], data[j]) == Vec2(0.0, 0.0)
        invariant 0 <= j <= size
        invariant LastNonZero(es[..j]) == LastNonZero(es)
      {
        assert es[..j][..j - 1] == es[..j - 1];
        j := j - 1;
      }
      var last := if j > 0 then Sub(data[j + 1], data[j]) else Vec2(0.0, 0.0);
      ghost var s0 := Start(LastNonZero(es));
      s := Start(last);
      var i := 0;
      while i < size && Running(s, CRules)
        invariant 0 <= i <= size
        invariant s == Run(s0, es[..i], CRules)
      {
        RunPrefixStep(s0, es, i, CRules);
        assert Sub(data[i + 2], data[i + 1]) == es[i];
        s := Step(s, Sub(data[i + 2], data[i + 1]), CRules);
        i := i + 1;
      }
      if i < size {
        RunStopped(s0, es, i, size, CRules);
      }
    }

    /**
     * Poly_classify: the flags record the scan's verdict on convexity,
     * duplicate vertices and degeneracy.  The source runs it only while
     * convexity is unknown.
     */
    method Classify()
      requires Valid() && !flags.convexKnown
      modifies this, data
      ensures Valid() && Verts() == old(Verts())
      ensures flags == ClassifiedFlags(old(flags), CScan(Verts()), size)
      ensures centroid == old(centroid) && bbox == old(bbox) && yPoly == old(yPoly) && rt == old(rt)
      ensures minR2 == old(minR2) && maxR2 == old(maxR2)
    {
      DupFirst();
      var s := ScanEdges();
      ClassifiedFlagsSay(flags, s, size);
      flags := ClassifiedFlags(flags, s, size);
    }

    /**
     * Poly_check_is_simple, corrected: the flags then record whether any
     * two non-adjacent edges intersect, as the exhaustive check decides
     * it.  The source runs it only while simplicity is unknown.
     */
    method CheckIsSimple()
      requires Valid() && !flags.simpleKnown
      modifies this, data
      ensures Valid() && Verts() == old(Verts())
      ensures flags == old(flags).(simpleKnown := true, simple := IsSimpleSpec(Verts()))
      ensures centroid == old(centroid) && bbox == old(bbox) && yPoly == old(yPoly) && rt == old(rt)
      ensures minR2 == old(minR2) && maxR2 == old(maxR2)
    {
      DupFirst();
      var simple := Sweep.CheckIsSimple(data[1..size + 1]);
      flags := flags.(simpleKnown := true, simple := simple);
    }

    /** Poly_get_is_convex (poly_is_convex): classify when convexity is unknown. */
    method GetIsConvex() returns (convex: bool)
      requires Valid()
      modifies this, data
      ensures Valid() && Verts() == old(Verts())
      ensures convex == ConvexAfter(old(flags), Verts())
      ensures flags.convexKnown && convex == flags.convex
      ensures old(flags.convexKnown) ==> flags == old(flags)
      ensures centroid == old(centroid) && bbox == old(bbox) && yPoly == old(yPoly) && rt == old(rt)
      ensures minR2 == old(minR2) && maxR2 == old(maxR2)
    {
      if !flags.convexKnown {
        Classify();
      }
      convex := flags.convex;
    }

    /**
     * Poly_get_is_simple: classify when convexity is unknown, then sweep
     * when that has not settled simplicity.
     */
    method GetIsSimple() returns (simple: bool)
      requires Valid()
      modifies this, data
      ensures Valid() && Verts() == old(Verts())
      ensures simple == SimpleAfter(old(flags), Verts())
      ensures flags.simpleKnown && simple == flags.simple
      ensures old(flags.simpleKnown) ==> flags == old(flags)
      ensures flags.centroidKnown == old(flags.centroidKnown)
      ensures centroid == old(centroid) && bbox == old(bbox) && yPoly == old(yPoly) && rt == old(rt)
      ensures minR2 == old(minR2) && maxR2 == old(maxR2)
    {
      if !flags.simpleKnown {
        if !flags.convexKnown {
          ghost var f0 := flags;
          Classify();
          ClassifiedFlagsSay(f0, CScan(Verts()), size);
        }
        if !flags.simpleKnown {
          CheckIsSimple();
        }
      }
      simple := flags.simple;
    }

    /**
     * The area-weighted fan loop of Poly_get_centroid: triangles
     * (vert[0], vert[i - 1], vert[i]) for i from 2.
     */
    method FanSumsOfData() returns (sums: (Vec2, real))
      requires data.Length == size + 2 && size >= 3
      ensures sums == FanSums(Verts(), size)
    {
      ghost var verts := Verts();
      var total := 0.0;
      var cx, cy := 0.0, 0.0;
      var a, b := data[1], data[2];
      var i := 2;
      while i < size
        invariant 2 <= i <= size
        invariant (Vec2(cx, cy), total) == FanSums(verts, i)
        invariant a == verts[0] && b == verts[i - 1]
      {
        var c := data[i + 1];
        var term := FanTerm(a, b, c);
        cx := cx + term.0.x;
        cy := cy + term.0.y;
        total := total + term.1;
        b := c;
        i := i + 1;
      }
      sums := (Vec2(cx, cy), total);
    }

    /**
     * The first half of Poly_get_centroid: classify while convexity is
     * unknown, then sweep while simplicity still is.
     */
    method SettleSimple()
      requires Valid() && !flags.centroidKnown
      modifies this, data
      ensures Valid() && Verts() == old(Verts())
      ensures flags.convexKnown && flags.simpleKnown && !flags.centroidKnown
      ensures flags.simple == CentroidSimple(old(flags), Verts())
      ensures bbox == old(bbox) && yPoly == old(yPoly) && rt == old(rt)
    {
      if !flags.convexKnown {
        ghost var f0 := flags;
        Classify();
        ClassifiedFlagsSay(f0, CScan(Verts()), size);
      }
      if !flags.simpleKnown {
        CheckIsSimple();
      }
    }

    /**
     * The fan sums of Poly_get_centroid over the vertices, with the first
     * vertex copied past the last, divided out.
     */
    method FanCentroidOfData() returns (r: Result<Vec2>)
      requires Valid()
      modifies data
      ensures Valid() && Verts() == old(Verts())
      ensures r == FanCentroid(Verts())
    {
      DupFirst();
      var sums := FanSumsOfData();
      var total := sums.1;
      if total == 0.0 {
        return Err(ZeroDivisionError);
      }
      r := Ok(Vec2(sums.0.x / (3.0 * total), sums.0.y / (3.0 * total)));
    }

    /**
     * Poly_get_centroid: a simple polygon's fan centroid (computed once
     * and cached), None for one that is not simple.  A fan of zero total
     * area, where the source divides by zero, is a ZeroDivisionError and
     * nothing is cached.
     */
    method GetCentroid() returns (r: Result<Option<Vec2>>)
      requires Valid()
      modifies this, data
      ensures Valid() && Verts() == old(Verts())
      ensures CentroidSimple(old(flags), Verts()) && FanCentroid(Verts()).Ok? ==> r == Ok(Some(FanCentroid(Verts()).value))
      ensures CentroidSimple(old(flags), Verts()) && FanCentroid(Verts()).Err? ==> r == Err(ZeroDivisionError)
      ensures !CentroidSimple(old(flags), Verts()) ==> r == Ok(None)
      ensures bbox == old(bbox) && yPoly == old(yPoly) && rt == old(rt)
    {
      if !flags.centroidKnown || !flags.simpleKnown {
        SettleSimple();
        if flags.simple {
          var c := FanCentroidOfData();
          if c.Err? {
            return Err(ZeroDivisionError);
          }
          centroid := c.value;
        }
        flags := flags.(centroidKnown := true);
      }
      if flags.simple {
        return Ok(Some(centroid));
      }
      return Ok(None);
    }

    /** Poly_get_bbox: the cached box, computed with PlanarBBox_fromSeq2 the first time. */
    method GetBBox() returns (b: BBox)
      requires Valid()
      modifies this
      ensures Valid() && bbox == Some(b) && Encloses(b, Verts())
      ensures old(bbox).Some? ==> b == old(bbox).value
      ensures flags == old(flags) && centroid == old(centroid) && yPoly == old(yPoly) && rt == old(rt)
      ensures minR2 == old(minR2) && maxR2 == old(maxR2)
    {
      if bbox.None? {
        var nb := FromSeq2(data[1..size + 1]);
        bbox := Some(nb);
      }
      b := bbox.value;
    }

    /**
     * pnp_winding_test: walk the edges from the last vertex round to it
     * again, counting crossings of pt's horizontal; a non-zero count is
     * inside.
     */
    method WindingTest(pt: Vec2) returns (inside: bool)
      requires data.Length == size + 2 && size >= 3
      ensures inside == (WindingNumber(Verts(), pt) != 0)
    {
      ghost var verts := Verts();
      var windingNo := 0;
      var v0 := data[size];
      var v0Above := v0.y >= pt.y;
      var k := 0;
      while k < size
        invariant 0 <= k <= size
        invariant windingNo == WindingPrefix(verts, pt, k)
        invariant v0 == verts[if k == 0 then size - 1 else k - 1]
        invariant v0Above == (v0.y >= pt.y)
      {
        var v1 := data[k + 1];
        var v1Above := v1.y >= pt.y;
        if v0Above != v1Above {
          if v1Above {
            if Side(v0, v1, pt) <= 0.0 {
              windingNo := windingNo + 1;
            }
          } else {
            if Side(v0, v1, pt) >= 0.0 {
              windingNo := windingNo - 1;
            }
          }
        }
        v0Above := v1Above;
        v0 := v1;
        k := k + 1;
      }
      inside := windingNo != 0;
    }

    /** The extremes scan of split_y_polylines, keeping the extreme coordinates as it goes. */
    method ExtremesOfData() returns (e: Ext)
      requires data.Length == size + 2 && size >= 3
      ensures e == Extremes(Verts())
    {
      ghost var verts := Verts();
      e := Ext(0, 0, 0, 0);
      var minY, maxY := data[1].y, data[1].y;
      var minX, maxX := data[1].x, data[1].x;
      var v := 1;
      while v < size
        invariant 1 <= v <= size
        invariant e == ExtremesOf(verts, v)
        invariant minY == verts[e.min].y && maxY == verts[e.max].y
        invariant minX == verts[e.left].x && maxX == verts[e.right].x
      {
        var q := data[v + 1];
        if q.y < minY {
          minY := q.y;
          e := e.(min := v);
        }
        if q.y > maxY {
          maxY := q.y;
          e := e.(max := v);
        }
        if q.x < minX {
          minX := q.x;
          e := e.(left := v);
        }
        if q.x > maxX {
          maxX := q.x;
          e := e.(right := v);
        }
        v := v + 1;
      }
    }

    /**
     * split_y_polylines: a fresh buffer of size + 2 points holding the
     * left y-monotone polyline and then the right one, both from the
     * lowest vertex to the highest, and rt where the right one starts.
     * The source splits only while no split is cached.
     */
    method SplitYPolylines()
      requires Valid() && yPoly.None?
      modifies this
      ensures Valid() && yPoly.Some? && fresh(yPoly.value)
      ensures yPoly.value[..] == LeftChain(Verts()) + RightChain(Verts()) && rt == |LeftChain(Verts())|
      ensures flags == old(flags) && centroid == old(centroid) && bbox == old(bbox)
      ensures minR2 == old(minR2) && maxR2 == old(maxR2)
    {
      var e := ExtremesOfData();
      var buf, rtAt := NewPolylines(data[1..size + 1], e);
      yPoly := Some(buf);
      rt := rtAt;
    }

    /**
     * pnp_y_monotone_test, split first when the polylines are not cached,
     * with the one-vertex left polyline answered outside.  On polylines
     * that ascend in y it decides ChainInside.
     */
    method MonotoneTest(pt: Vec2) returns (inside: bool)
      requires Valid()
      modifies this
      ensures Valid() && yPoly.Some?
      ensures ChainAnswer(LeftChain(Verts()) + RightChain(Verts()), |LeftChain(Verts())|, pt, inside)
      ensures flags == old(flags) && centroid == old(centroid) && bbox == old(bbox)
      ensures minR2 == old(minR2) && maxR2 == old(maxR2)
    {
      if yPoly.None? {
        SplitYPolylines();
      }
      ChainsSpan(Verts());
      inside := ChainTest(yPoly.value[..], rt, pt);
    }

    /**
     * Poly_contains_point.  With a cached radius and centroid a point
     * nearer than the inner radius is inside and one beyond the outer
     * radius outside.  Then a convex polygon of more than five vertices
     * takes the y-monotone test; any other polygon the winding test,
     * behind a bounding-box test for more than four vertices, which never
     * changes the winding test's answer.
     */
    method ContainsPoint(pt: Vec2) returns (inside: bool)
      requires Valid()
      modifies this, data
      ensures Valid() && Verts() == old(Verts())
      ensures var d2 := Dist2(old(centroid), pt);
        old(flags).radiusKnown && old(flags).centroidKnown ==>
          (d2 < old(minR2) ==> inside) && (!(d2 < old(minR2)) && d2 > old(maxR2) ==> !inside)
      ensures !RadiusAnswers(old(flags), old(centroid), old(minR2), old(maxR2), pt) && ConvexAfter(old(flags), Verts()) && size > 5 ==>
        ChainAnswer(LeftChain(Verts()) + RightChain(Verts()), |LeftChain(Verts())|, pt, inside)
      ensures !RadiusAnswers(old(flags), old(centroid), old(minR2), old(maxR2), pt) && !(ConvexAfter(old(flags), Verts()) && size > 5) ==>
        inside == (WindingNumber(Verts(), pt) != 0)
    {
      if flags.radiusKnown && flags.centroidKnown {
        var d2 := Dist2(centroid, pt);
        if d2 < minR2 {
          return true;
        }
        if d2 > maxR2 {
          return false;
        }
      }
      assert !RadiusAnswers(flags, centroid, minR2, maxR2, pt);
      var convex := GetIsConvex();
      if convex && size > 5 {
        inside := MonotoneTest(pt);
      } else {
        if size > 4 {
          var b := GetBBox();
          if !Planar.ContainsPoint(b, pt) {
            OutsideBoxWindsZero(Verts(), b, pt);
            return false;
          }
        }
        inside := WindingTest(pt);
      }
    }

    /** The first loop of Poly_compare_eq with both cursors advancing: the vertex lists are identical. */
    method IdenticalVerts(other: Polygon) returns (same: bool)
      requires Valid() && other.Valid() && size == other.size
      ensures same <==> Verts() == other.Verts()
    {
      var i := 0;
      while i < size
        invariant 0 <= i <= size
        invariant forall k :: 0 <= k < i ==> Verts()[k] == other.Verts()[k]
      {
        if data[i + 1] != other.data[i + 1] {
          return false;
        }
        i := i + 1;
      }
      return true;
    }

    /** Slot-by-slot comparison of two sorted triple lists, the second read the other way round when flipped. */
    static method SameTriples(sa: seq<Triple>, sb: seq<Triple>, flipped: bool) returns (same: bool)
      requires |sa| == |sb|
      ensures same <==> sa == (if flipped then FlipAll(sb) else sb)
    {
      var i := 0;
      while i < |sa|
        invariant 0 <= i <= |sa|
        invariant forall k :: 0 <= k < i ==> sa[k] == (if flipped then Flip(sb[k]) else sb[k])
      {
        var t := if flipped then Flip(sb[i]) else sb[i];
        if sa[i].prev != t.prev || sa[i].cur != t.cur || sa[i].next != t.next {
          return false;
        }
        i := i + 1;
      }
      return true;
    }

    /**
     * Poly_compare_eq: the same polygon, or the same size and either the
     * same vertex list or the same triples in the same or the opposite
     * winding.  qsort is outside the model: sa and sb are the two
     * polygons' triples as qsort leaves them with compare_vec_triples,
     * sbRev the other polygon's with compare_vec_triples_reverse.
     */
    method Equals(other: Polygon, sa: seq<Triple>, sb: seq<Triple>, sbRev: seq<Triple>) returns (eq: bool)
      requires Valid() && other.Valid()
      requires multiset(sa) == multiset(Triples(Verts())) && SortedTriples(sa)
      requires multiset(sb) == multiset(Triples(other.Verts())) && SortedTriples(sb)
      requires multiset(sbRev) == multiset(Triples(other.Verts())) && SortedTriplesReverse(sbRev)
      ensures eq <==> SameShape(Verts(), other.Verts())
    {
      if this == other {
        return true;
      }
      if size != other.size {
        return false;
      }
      eq := IdenticalVerts(other);
      if eq {
        return;
      }
      assert |sa| == |Triples(Verts())| && |sb| == |Triples(other.Verts())| && |sbRev| == |sb| by {
        assert |multiset(sa)| == |sa| && |multiset(sb)| == |sb| && |multiset(sbRev)| == |sbRev|;
      }
      eq := SameTriples(sa, sb, false);
      if multiset(Triples(Verts())) == multiset(Triples(other.Verts())) {
        SortedUnique(sa, sb);
      }
      if eq {
        return;
      }
      eq := SameTriples(sa, sbRev, true);
      FlipAllMultiset(sbRev, Triples(other.Verts()));
      assert FlipAll(Triples(other.Verts())) == FlippedTriples(other.Verts());
      FlipAllSorted(sbRev);
      if multiset(Triples(Verts())) == multiset(FlippedTriples(other.Verts())) {
        SortedUnique(sa, FlipAll(sbRev));
      }
    }

    /**
     * Poly_copy: a fresh polygon with the same vertices, flags, centroid
     * and radii, and a copy of the split when one is cached; the bounding
     * box is not carried over.
     */
    method Copy() returns (poly: Polygon)
      requires Valid()
      ensures fresh(poly) && fresh(poly.data) && poly.Valid()
      ensures poly.size == size && poly.Verts() == Verts()
      ensures poly.flags == flags && poly.centroid == centroid && poly.minR2 == minR2 && poly.maxR2 == maxR2
      ensures poly.bbox.None? && (poly.yPoly.Some? <==> yPoly.Some?)
      ensures poly.yPoly.Some? ==> fresh(poly.yPoly.value) && poly.yPoly.value[..] == yPoly.value[..] && poly.rt == rt
    {
      var copied := CopyOfBuffer(yPoly);
      poly := new Polygon.Alloc(size);
      CopyForward(poly.data, 1, data[1..size + 1], 0, size);
      assert poly.Verts() == Verts();
      poly.flags := flags;
      poly.centroid := centroid;
      poly.minR2, poly.maxR2 := minR2, maxR2;
      poly.yPoly := copied;
      poly.rt := rt;
    }

    /**
     * Poly_convex_hull of a polygon: one whose convex flag is set is
     * copied; any other is hulled from its vertices.
     */
    method HullOfPolygon() returns (r: Result<Polygon>)
      requires Valid()
      ensures r.Ok? && fresh(r.value) && r.value.Valid()
      ensures flags.convex ==> r.value.Verts() == Verts() && r.value.flags == flags
      ensures !flags.convex ==>
        r.value.flags == ConvexFlags && 3 <= r.value.size <= size &&
        forall k :: 0 <= k < r.value.size ==> r.value.Verts()[k] in Verts()
    {
      if flags.convex {
        var poly := Copy();
        return Ok(poly);
      }
      r := HullOfPoints(Verts());
    }

    /**
     * Poly_convex_hull of a point list: the adaptive quickhull, as a new
     * polygon flagged convex and simple.  Fewer than three points is a
     * ValueError.
     */
    static method HullOfPoints(points: seq<Vec2>) returns (r: Result<Polygon>)
      ensures |points| < 3 <==> r == Err(ValueError)
      ensures |points| >= 3 <==> r.Ok?
      ensures r.Ok? ==>
        fresh(r.value) && r.value.Valid() && r.value.flags == ConvexFlags &&
        3 <= r.value.size <= |points| &&
        (forall k :: 0 <= k < r.value.size ==> r.value.Verts()[k] in points) &&
        r.value.bbox.None? && r.value.yPoly.None?
    {
      var hull := CHull.ConvexHull(points);
      if hull.Err? {
        return Err(hull.error);
      }
      var poly := new Polygon.Alloc(|hull.value|);
      CopyForward(poly.data, 1, hull.value, 0, |hull.value|);
      assert poly.Verts() == hull.value;
      poly.flags := ConvexFlags;
      return Ok(poly);
    }
  }

  /**
   * BBox_to_polygon (cbox.c): a fresh four-vertex polygon on the box's
   * corners from the minimum, up the left side first, flagged known
   * convex and simple.
   */
  method BoxToPolygon(b: BBox) returns (poly: Polygon)
    ensures fresh(poly) && poly.Valid() && poly.flags == ConvexFlags
    ensures poly.Verts() == PyBox.Corners(b)
    ensures poly.bbox.None? && poly.yPoly.None?
  {
    poly := new Polygon.Alloc(4);
    poly.data[1] := Vec2(b.min.x, b.min.y);
    poly.data[2] := Vec2(b.min.x, b.max.y);
    poly.data[3] := Vec2(b.max.x, b.max.y);
    poly.data[4] := Vec2(b.max.x, b.min.y);
    poly.flags := ConvexFlags;
    assert poly.Verts() == [b.min, Vec2(b.min.x, b.max.y), b.max, Vec2(b.max.x, b.min.y)];
  }
}

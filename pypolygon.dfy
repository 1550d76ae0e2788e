/**
 * The Polygon class of belgika/planar/polygon.py: a vertex list with
 * lazily computed, cached derived state (convexity, simplicity,
 * degeneracy, duplicate vertices, the y-monotone polylines, the bounding
 * box and the centroid), every cache cleared when a vertex is assigned.
 * The vertex list is a value, so the fields are plain sequences and
 * options; None stands for the source's _unknown marker.
 */
module PyPolygon {
  import opened Wrappers
  import opened Planar
  import opened PolySpec
  import opened Classify
  import opened YChains
  import Sweep
  import PyBox
  import PyHull

  // ---------------------------------------------------------------
  // The loops the cached properties run, over the vertex list
  // ---------------------------------------------------------------

  /**
   * The _classify loop over the edge vectors self[i] - self[i - 1], zero
   * vectors filtered out, until the turns disagree; it starts from the
   * last non-zero edge walked (the corrected start, see PyScanAsWritten).
   */
  method ScanEdgeVectors(verts: seq<Vec2>) returns (s: Scan)
    requires |verts| >= 2
    ensures s == PyScan(verts)
  {
    var n := |verts|;
    ghost var es := PyEdges(verts);
    assert es[..n] == es;
    var j := n;
    while j > 0 && Sub(verts[j - 1], verts[Prev(j - 1, n)]) == Vec2(0.0, 0.0)
      invariant 0 <= j <= n
      invariant LastNonZero(es[..j]) == LastNonZero(es)
    {
      assert es[..j][..j - 1] == es[..j - 1];
      j := j - 1;
    }
    var lastDelta := if j > 0 then Sub(verts[j - 1], verts[Prev(j - 1, n)]) else Vec2(0.0, 0.0);
    ghost var s0 := Start(LastNonZero(es));
    s := Start(lastDelta);
    var i := 0;
    while i < n && Running(s, PyRules)
      invariant 0 <= i <= n
      invariant s == Run(s0, es[..i], PyRules)
    {
      RunPrefixStep(s0, es, i, PyRules);
      s := Step(s, Sub(verts[i], verts[Prev(i, n)]), PyRules);
      i := i + 1;
    }
    if i < n {
      RunStopped(s0, es, i, n, PyRules);
    }
  }

  /**
   * The first loop of _split_y_polylines: the indices of the lowest,
   * highest, leftmost and rightmost vertices, each moved only on a strict
   * improvement.
   */
  method ScanExtremes(verts: seq<Vec2>) returns (e: Ext)
    requires |verts| >= 1
    ensures e == Extremes(verts)
  {
    var minY, maxY := verts[0].y, verts[0].y;
    var minX, maxX := verts[0].x, verts[0].x;
    var minI, maxI, leftI, rightI := 0, 0, 0, 0;
    var i := 0;
    while i < |verts|
      invariant 0 <= i <= |verts|
      invariant Ext(minI, maxI, leftI, rightI) == ExtremesOf(verts, if i == 0 then 1 else i)
      invariant minY == verts[minI].y && maxY == verts[maxI].y
      invariant minX == verts[leftI].x && maxX == verts[rightI].x
    {
      var v := verts[i];
      if v.y < minY {
        minY, minI := v.y, i;
      }
      if v.y > maxY {
        maxY, maxI := v.y, i;
      }
      if v.x < minX {
        minX, leftI := v.x, i;
      }
      if v.x > maxX {
        maxX, rightI := v.x, i;
      }
      i := i + 1;
    }
    e := Ext(minI, maxI, leftI, rightI);
  }

  /** An extreme index other than 0 was reached by a strict improvement on vertex 0. */
  lemma {:induction false} ExtremesStrict(verts: seq<Vec2>, k: nat)
    requires 1 <= k <= |verts|
    ensures var e := ExtremesOf(verts, k);
      (e.min == 0 || verts[e.min].y < verts[0].y) && (e.max == 0 || verts[e.max].y > verts[0].y)
  {
    if k > 1 {
      ExtremesStrict(verts, k - 1);
      ExtremesOfBound(verts, k - 1);
    }
  }

  /** The lowest and the highest vertex differ in y unless both are vertex 0. */
  lemma ExtremesOrder(verts: seq<Vec2>)
    requires |verts| >= 1
    ensures var e := Extremes(verts);
      e.min != e.max ==> verts[e.min].y < verts[e.max].y
  {
    ExtremesStrict(verts, |verts|);
    ExtremesOfBound(verts, |verts|);
  }

  lemma ReverseAppend<T>(a: seq<T>, b: seq<T>)
    ensures Reverse(a + b) == Reverse(b) + Reverse(a)
  {
    assert forall i :: 0 <= i < |a + b| ==> Reverse(a + b)[i] == (Reverse(b) + Reverse(a))[i];
  }

  /** A polyline list as _split_y_polylines leaves it: reversed when it runs downwards. */
  function Upward(pl: seq<Vec2>): seq<Vec2>
    requires |pl| >= 1
  {
    if pl[0].y > pl[|pl| - 1].y then Reverse(pl) else pl
  }

  /** The reversal _split_y_polylines applies to each list, in place in the source. */
  method MakeUpward(pl: seq<Vec2>) returns (r: seq<Vec2>)
    requires |pl| >= 1
    ensures r == Upward(pl)
    ensures multiset(r) == multiset(pl) && r[0].y <= r[|r| - 1].y
  {
    r := pl;
    if r[0].y > r[|r| - 1].y {
      r := Reverse(r);
      ReverseMultiset(pl);
    }
  }

  /** With the lowest vertex first, the first slice runs up and the wrapped one down. */
  lemma UpwardRising(verts: seq<Vec2>, e: Ext)
    requires e.min < e.max < |verts| && verts[e.min].y < verts[e.max].y
    ensures Upward(verts[e.min..e.max + 1]) == Pl1(verts, e)
    ensures Upward(verts[e.max..] + verts[..e.min + 1]) == Pl2(verts, e)
  {
    var p1, p2 := verts[e.min..e.max + 1], verts[e.max..] + verts[..e.min + 1];
    assert p1[0] == verts[e.min] && p1[|p1| - 1] == verts[e.max];
    assert p2[0] == verts[e.max] && p2[|p2| - 1] == verts[e.min];
    ReverseAppend(verts[e.max..], verts[..e.min + 1]);
    assert Pl1(verts, e) == p1 && Pl2(verts, e) == Reverse(p2);
  }

  /** With the highest vertex first, the first slice runs down and the wrapped one up. */
  lemma UpwardFalling(verts: seq<Vec2>, e: Ext)
    requires e.max <= e.min < |verts|
    requires e.min == e.max || verts[e.min].y < verts[e.max].y
    ensures Upward(verts[e.max..e.min + 1]) == Pl1(verts, e)
    ensures Upward(verts[e.min..] + verts[..e.max + 1]) == Pl2(verts, e)
  {
    var p1, p2 := verts[e.max..e.min + 1], verts[e.min..] + verts[..e.max + 1];
    assert p1[0] == verts[e.max] && p1[|p1| - 1] == verts[e.min];
    assert p2[0] == verts[e.min] && p2[|p2| - 1] == verts[e.max];
    assert Pl1(verts, e) == Reverse(p1) && Pl2(verts, e) == p2;
    if e.min == e.max {
      assert p1 == [verts[e.min]];
      assert Reverse(p1) == p1;
    }
  }

  /**
   * _split_y_polylines: slices of the vertex list around the lowest and
   * highest vertices, the one holding the leftmost (or missing the
   * rightmost) vertex taken as the left polyline, and each list reversed
   * when it runs downwards.  The source stores the pair before reversing
   * the two lists in place, which the pair sees; here the reversed values
   * are stored.  The polylines are those of split_y_polylines in C.
   */
  method SplitPolylines(verts: seq<Vec2>) returns (left: seq<Vec2>, right: seq<Vec2>)
    requires |verts| >= 1
    ensures left == LeftChain(verts) && right == RightChain(verts)
  {
    var e := ScanExtremes(verts);
    ExtremesOrder(verts);
    var pl1, pl2, firstLeft;
    if e.min < e.max {
      pl1, pl2, firstLeft := RisingPolylines(verts, e);
    } else {
      pl1, pl2, firstLeft := FallingPolylines(verts, e);
    }
    if firstLeft {
      left, right := pl1, pl2;
    } else {
      left, right := pl2, pl1;
    }
  }

  /** The slices when the lowest vertex comes before the highest one, each made upward. */
  method RisingPolylines(verts: seq<Vec2>, e: Ext) returns (pl1: seq<Vec2>, pl2: seq<Vec2>, firstLeft: bool)
    requires e.min < e.max < |verts| && verts[e.min].y < verts[e.max].y
    ensures pl1 == Pl1(verts, e) && pl2 == Pl2(verts, e) && firstLeft == Pl1IsLeft(e)
  {
    var minI, maxI, leftI, rightI := e.min, e.max, e.left, e.right;
    pl1 := verts[minI..maxI + 1];
    pl2 := verts[maxI..] + verts[..minI + 1];
    firstLeft := (minI <= leftI < maxI) || rightI < minI || rightI > maxI;
    UpwardRising(verts, e);
    pl1 := MakeUpward(pl1);
    pl2 := MakeUpward(pl2);
  }

  /** The slices when the highest vertex comes first (or is the lowest), each made upward. */
  method FallingPolylines(verts: seq<Vec2>, e: Ext) returns (pl1: seq<Vec2>, pl2: seq<Vec2>, firstLeft: bool)
    requires e.max <= e.min < |verts|
    requires e.min == e.max || verts[e.min].y < verts[e.max].y
    ensures pl1 == Pl1(verts, e) && pl2 == Pl2(verts, e) && firstLeft == Pl1IsLeft(e)
  {
    var minI, maxI, leftI, rightI := e.min, e.max, e.left, e.right;
    pl1 := verts[maxI..minI + 1];
    pl2 := verts[minI..] + verts[..maxI + 1];
    firstLeft := (minI >= leftI > maxI) || rightI > minI || rightI < maxI;
    UpwardFalling(verts, e);
    pl1 := MakeUpward(pl1);
    pl2 := MakeUpward(pl2);
  }

  /**
   * The centroid loop: the fan triangles (self[0], b, c) summed, each
   * vertex sum weighted by the doubled signed area.
   */
  method SumFan(verts: seq<Vec2>) returns (sums: (Vec2, real))
    requires |verts| >= 2
    ensures sums == FanSums(verts, |verts|)
  {
    var a, b := verts[0], verts[1];
    var totalArea := 0.0;
    var cx, cy := 0.0, 0.0;
    var i := 2;
    while i < |verts|
      invariant 2 <= i <= |verts|
      invariant (Vec2(cx, cy), totalArea) == FanSums(verts, i)
      invariant a == verts[0] && b == verts[i - 1]
    {
      var c := verts[i];
      var term := FanTerm(a, b, c);
      cx, cy := cx + term.0.x, cy + term.0.y;
      totalArea := totalArea + term.1;
      b := c;
      i := i + 1;
    }
    sums := (Vec2(cx, cy), totalArea);
  }

  // ---------------------------------------------------------------
  // The tagged triple sets of __eq__
  // ---------------------------------------------------------------

  /**
   * The trigram __eq__ builds at index i: self[i - 2], self[i - 1],
   * self[i], which is vertex i - 1 with its neighbours.
   */
  function PyTriples(verts: seq<Vec2>): (r: seq<Triple>)
    ensures |r| == |verts|
    ensures forall i :: 0 <= i < |verts| ==> r[i] == TripleAt(verts, Prev(i, |verts|))
  {
    seq(|verts|, i requires 0 <= i < |verts| => TripleAt(verts, Prev(i, |verts|)))
  }

  /** The reversed trigram: self[i], self[i - 1], self[i - 2]. */
  function PyFlippedTriples(verts: seq<Vec2>): (r: seq<Triple>)
    ensures |r| == |verts|
    ensures forall i :: 0 <= i < |verts| ==> r[i] == Flip(TripleAt(verts, Prev(i, |verts|)))
  {
    seq(|verts|, i requires 0 <= i < |verts| => Flip(TripleAt(verts, Prev(i, |verts|))))
  }

  /** The list started at its last element. */
  function Back<T>(s: seq<T>): (r: seq<T>)
    requires |s| >= 1
    ensures |r| == |s| && forall i :: 0 <= i < |s| ==> r[i] == s[Prev(i, |s|)]
  {
    seq(|s|, i requires 0 <= i < |s| => s[Prev(i, |s|)])
  }

  lemma BackMultiset<T>(s: seq<T>)
    requires |s| >= 1
    ensures multiset(Back(s)) == multiset(s)
  {
    assert Back(s) == Rotate(s, |s| - 1);
    RotateMultiset(s, |s| - 1);
  }

  /** The trigrams are the vertex triples started one vertex earlier. */
  lemma PyTriplesMultiset(verts: seq<Vec2>)
    requires |verts| >= 1
    ensures multiset(PyTriples(verts)) == multiset(Triples(verts))
  {
    var ts := Triples(verts);
    assert PyTriples(verts) == Back(ts);
    BackMultiset(ts);
  }

  lemma PyFlippedTriplesMultiset(verts: seq<Vec2>)
    requires |verts| >= 1
    ensures multiset(PyFlippedTriples(verts)) == multiset(FlippedTriples(verts))
  {
    var ts := FlippedTriples(verts);
    assert PyFlippedTriples(verts) == Back(ts);
    BackMultiset(ts);
  }

  /**
   * The set of tagged trigrams __eq__ builds from a list of trigrams: each
   * trigram is stored with the number of times it occurred before it, so a
   * trigram seen c times carries the tags 0 .. c - 1.
   */
  function Tags(ts: seq<Triple>): set<(Triple, nat)>
    decreases |ts|
  {
    if ts == [] then {}
    else
      var p := ts[..|ts| - 1];
      Tags(p) + {(ts[|ts| - 1], multiset(p)[ts[|ts| - 1]])}
  }

  lemma {:induction false} TagsMember(ts: seq<Triple>, t: Triple, k: nat)
    ensures (t, k) in Tags(ts) <==> k < multiset(ts)[t]
    decreases |ts|
  {
    if ts != [] {
      var p := ts[..|ts| - 1];
      TagsMember(p, t, k);
      assert ts == p + [ts[|ts| - 1]];
    }
  }

  /** The tagged sets of two lists are equal exactly when the lists hold the same trigrams as often. */
  lemma TagsEqual(a: seq<Triple>, b: seq<Triple>)
    ensures Tags(a) == Tags(b) <==> multiset(a) == multiset(b)
  {
    if multiset(a) == multiset(b) {
      forall p | p in Tags(a) ensures p in Tags(b) {
        TagsMember(a, p.0, p.1);
        TagsMember(b, p.0, p.1);
      }
      forall p | p in Tags(b) ensures p in Tags(a) {
        TagsMember(a, p.0, p.1);
        TagsMember(b, p.0, p.1);
      }
    }
    if Tags(a) == Tags(b) {
      forall t ensures multiset(a)[t] == multiset(b)[t] {
        TagsMember(a, t, multiset(a)[t]);
        TagsMember(b, t, multiset(a)[t]);
        TagsMember(a, t, multiset(b)[t]);
        TagsMember(b, t, multiset(b)[t]);
      }
    }
  }

  /** A trigram of ts missing, at its tag, from the tags of us rules out equal counts. */
  lemma TagMissing(ts: seq<Triple>, i: nat, us: seq<Triple>)
    requires i < |ts|
    requires (ts[i], multiset(ts[..i])[ts[i]]) !in Tags(us)
    ensures multiset(us) != multiset(ts)
  {
    var t := ts[i];
    TagsMember(us, t, multiset(ts[..i])[t]);
    assert ts == ts[..i] + [t] + ts[i + 1..];
  }

  /** Tagging the next trigram of a list extends the tagged set of its prefix. */
  lemma TagNext(ts: seq<Triple>, i: nat)
    requires i < |ts|
    ensures Tags(ts[..i + 1]) == Tags(ts[..i]) + {(ts[i], multiset(ts[..i])[ts[i]])}
  {
    assert ts[..i + 1][..i] == ts[..i];
  }

  /** The loop of __eq__ that steps a trigram's tag past those already stored. */
  method FirstFreeTag(edges: set<(Triple, nat)>, t: Triple, ghost ts: seq<Triple>) returns (k: nat)
    requires edges == Tags(ts)
    ensures k == multiset(ts)[t]
  {
    k := 0;
    TagsMember(ts, t, k);
    while (t, k) in edges
      invariant k <= multiset(ts)[t]
      invariant (t, k) in edges <==> k < multiset(ts)[t]
      decreases multiset(ts)[t] - k
    {
      k := k + 1;
      TagsMember(ts, t, k);
    }
  }

  function TrigramList(verts: seq<Vec2>, flipped: bool): (r: seq<Triple>)
    ensures |r| == |verts|
  {
    if flipped then PyFlippedTriples(verts) else PyTriples(verts)
  }

  /** The trigram __eq__ builds at index i, read forward or reversed. */
  function PyTrigram(verts: seq<Vec2>, i: nat, flipped: bool): (t: Triple)
    requires i < |verts|
    ensures t == TrigramList(verts, flipped)[i]
  {
    var n := |verts|;
    NextPrev(i, n);
    if flipped then Triple(verts[i], verts[Prev(i, n)], verts[Prev(Prev(i, n), n)])
    else Triple(verts[Prev(Prev(i, n), n)], verts[Prev(i, n)], verts[i])
  }

  /** The first loop of __eq__'s edge test: every trigram of self, tagged. */
  method TagTrigrams(a: seq<Vec2>) returns (edges: set<(Triple, nat)>)
    ensures edges == Tags(PyTriples(a))
  {
    edges := {};
    assert PyTriples(a)[..0] == [];
    var i := 0;
    while i < |a|
      invariant 0 <= i <= |a|
      invariant edges == Tags(PyTriples(a)[..i])
    {
      var t := PyTrigram(a, i, false);
      assert t == PyTriples(a)[i];
      var k := FirstFreeTag(edges, t, PyTriples(a)[..i]);
      TagNext(PyTriples(a), i);
      edges := edges + {(t, k)};
      i := i + 1;
    }
    assert PyTriples(a)[..i] == PyTriples(a);
  }

  /**
   * The loops of __eq__ over the other polygon's trigrams (forward or
   * reversed), tagging each and stopping at the first tagged trigram self
   * does not have; stopping means the trigram counts differ.
   */
  method TagTrigramsWithin(b: seq<Vec2>, flipped: bool, selfEdges: set<(Triple, nat)>, ghost us: seq<Triple>)
    returns (complete: bool, edges: set<(Triple, nat)>)
    requires selfEdges == Tags(us)
    ensures complete ==> edges == Tags(TrigramList(b, flipped))
    ensures !complete ==> multiset(us) != multiset(TrigramList(b, flipped))
  {
    ghost var ts := TrigramList(b, flipped);
    edges := {};
    assert ts[..0] == [];
    var i := 0;
    while i < |b|
      invariant 0 <= i <= |b|
      invariant edges == Tags(ts[..i])
    {
      var t := PyTrigram(b, i, flipped);
      var k := FirstFreeTag(edges, t, ts[..i]);
      if (t, k) !in selfEdges {
        TagMissing(ts, i, us);
        return false, edges;
      }
      TagNext(ts, i);
      edges := edges + {(t, k)};
      i := i + 1;
    }
    assert ts[..i] == ts;
    complete := true;
  }

  // ---------------------------------------------------------------
  // The class
  // ---------------------------------------------------------------

  /** The degenerate and duplicate-vertex caches, where known, agree with the scan. */
  ghost predicate ScanCaches(verts: seq<Vec2>, degenerate: Option<bool>, dupeVerts: Option<bool>) {
    (degenerate.Some? ==> degenerate.value == PyDegenerate(PyScan(verts))) &&
    (dupeVerts.Some? ==> dupeVerts.value == (PyScan(verts).count < |verts|))
  }

  /** The polyline cache, where known, holds the left and right polylines. */
  ghost predicate PolylineCache(verts: seq<Vec2>, yPolylines: Option<(seq<Vec2>, seq<Vec2>)>)
    requires |verts| >= 1
  {
    yPolylines.Some? ==> yPolylines.value == (LeftChain(verts), RightChain(verts))
  }

  /**
   * What _classify stores: convexity from the scan, simple only when
   * convex, degeneracy from the scan; a convex polygon that is not
   * degenerate also gets its duplicate flag and its polylines, any other
   * keeps the ones it had.
   */
  ghost predicate Classified(verts: seq<Vec2>, dupe0: Option<bool>, polylines0: Option<(seq<Vec2>, seq<Vec2>)>,
                             convex: Option<bool>, simple: Option<bool>, degenerate: Option<bool>,
                             dupe: Option<bool>, polylines: Option<(seq<Vec2>, seq<Vec2>)>)
    requires |verts| >= 3
  {
    var s := PyScan(verts);
    convex == Some(IsConvex(s)) && simple == (if IsConvex(s) then Some(true) else None) &&
    degenerate == Some(PyDegenerate(s)) &&
    (if IsConvex(s) && !PyDegenerate(s)
     then dupe == Some(s.count < |verts|) && polylines == Some((LeftChain(verts), RightChain(verts)))
     else dupe == dupe0 && polylines == polylines0)
  }

  /**
   * The values _classify stores, from the vertices and the duplicate and
   * polyline caches it finds: the polygon's caches stay consistent.
   */
  method ClassifyValues(verts: seq<Vec2>, dupe0: Option<bool>, polylines0: Option<(seq<Vec2>, seq<Vec2>)>)
    returns (convex: Option<bool>, simple: Option<bool>, degenerate: Option<bool>,
             dupe: Option<bool>, polylines: Option<(seq<Vec2>, seq<Vec2>)>)
    requires |verts| >= 3
    ensures Classified(verts, dupe0, polylines0, convex, simple, degenerate, dupe, polylines)
  {
    var s := ScanEdgeVectors(verts);
    var isConvex, isDegenerate := IsConvex(s), PyDegenerate(s);
    dupe, polylines := dupe0, polylines0;
    if isConvex && !isDegenerate {
      var left, right := SplitPolylines(verts);
      dupe, polylines := Some(s.count < |verts|), Some((left, right));
    }
    convex, simple, degenerate := Some(isConvex), (if isConvex then Some(true) else None), Some(isDegenerate);
  }

  class Polygon {
    var verts: seq<Vec2>
    var convex: Option<bool>
    var simple: Option<bool>
    var dupeVerts: Option<bool>
    var degenerate: Option<bool>
    /** The left and right y-monotone polylines, each from the lowest vertex up. */
    var yPolylines: Option<(seq<Vec2>, seq<Vec2>)>
    var bbox: Option<BBox>
    /** None while unknown; Some(None) for a polygon found not simple. */
    var centroid: Option<Option<Vec2>>

    /**
     * What the public operations keep: at least three vertices, a
     * triangle convex and simple, convex implying simple, and every cache
     * that is computed from the vertices equal to what it computes.  The
     * convex and simple flags may have been given by the caller, so they
     * are not tied to the vertices.
     */
    ghost predicate Valid()
      reads this
    {
      |verts| >= 3 &&
      (|verts| == 3 ==> convex == Some(true) && simple == Some(true)) &&
      (convex == Some(true) ==> simple == Some(true)) &&
      ScanCaches(verts, degenerate, dupeVerts) && PolylineCache(verts, yPolylines) &&
      (bbox.Some? ==> bbox.value == PyBox.BoundsOf(verts)) &&
      (centroid.Some? && centroid.value.Some? ==> FanCentroid(verts) == Ok(centroid.value.value))
    }

    /** The state _clear_cached_properties leaves: a triangle convex and simple, all else unknown. */
    ghost predicate Cleared()
      reads this
    {
      convex == (if |verts| > 3 then None else Some(true)) && simple == convex &&
      dupeVerts.None? && degenerate.None? && yPolylines.None? && bbox.None? && centroid.None?
    }

    /** from_points: the vertices with every cache cleared (no length check). */
    constructor FromPoints(points: seq<Vec2>)
      ensures verts == points && Cleared()
      ensures |points| >= 3 ==> Valid()
    {
      verts := points;
      new;
      ClearCachedProperties();
    }

    /**
     * __init__: fewer than three vertices raise ValueError.  A given
     * is_convex is taken only while convexity is unknown (so never for a
     * triangle), makes the polygon simple when true, and splits the
     * polylines when there are more than three vertices; a given
     * is_simple is taken only while simplicity is still unknown.
     */
    static method New(points: seq<Vec2>, isConvex: Option<bool>, isSimple: Option<bool>) returns (r: Result<Polygon>)
      ensures r.Err? <==> |points| < 3
      ensures r.Err? ==> r.error == ValueError
      ensures r.Ok? ==> fresh(r.value) && r.value.Valid() && r.value.verts == points
      ensures r.Ok? ==> r.value.convex == (if |points| == 3 then Some(true) else isConvex)
      ensures r.Ok? ==>
        r.value.simple == (if |points| == 3 || isConvex == Some(true) then Some(true) else isSimple)
      ensures r.Ok? ==> (r.value.yPolylines ==
        if |points| > 3 && isConvex == Some(true) then Some((LeftChain(points), RightChain(points))) else None)
      ensures r.Ok? ==> r.value.dupeVerts.None? && r.value.degenerate.None?
      ensures r.Ok? ==> r.value.bbox.None? && r.value.centroid.None?
    {
      if |points| < 3 {
        return Err(ValueError);
      }
      var p := new Polygon.FromPoints(points);
      if isConvex.Some? && p.convex.None? {
        p.convex := isConvex;
        p.simple := if isConvex.value then Some(true) else None;
        if isConvex.value && |p.verts| > 3 {
          p.SplitYPolylines();
        }
      }
      if isSimple.Some? && p.simple.None? {
        p.simple := isSimple;
      }
      return Ok(p);
    }

    /** _clear_cached_properties. */
    method ClearCachedProperties()
      modifies this
      ensures verts == old(verts) && Cleared()
      ensures |verts| >= 3 ==> Valid()
    {
      if |verts| > 3 {
        convex, simple := None, None;
      } else {
        convex, simple := Some(true), Some(true);
      }
      yPolylines := None;
      dupeVerts, degenerate := None, None;
      bbox := None;
      centroid := None;
    }

    /**
     * __setitem__: a negative index counts from the end; outside the list
     * IndexError is raised before anything changes.  Otherwise the vertex
     * is replaced and every cache cleared.
     */
    method SetItem(index: int, v: Vec2) returns (r: Result<()>)
      requires Valid()
      modifies this
      ensures Valid()
      ensures r.Ok? <==> -|old(verts)| <= index < |old(verts)|
      ensures r.Err? ==> r.error == IndexError && unchanged(this)
      ensures r.Ok? ==> verts == old(verts)[(if index < 0 then index + |old(verts)| else index) := v] && Cleared()
    {
      var i := if index < 0 then index + |verts| else index;
      if !(0 <= i < |verts|) {
        return Err(IndexError);
      }
      verts := verts[i := v];
      ClearCachedProperties();
      return Ok(());
    }

    /** bounding_box: the box of the vertices, computed once and cached. */
    method BoundingBox() returns (b: BBox)
      requires Valid()
      modifies this
      ensures Valid() && bbox == Some(b)
      ensures b == PyBox.BoundsOf(verts) && Encloses(b, verts)
      ensures verts == old(verts) && convex == old(convex) && simple == old(simple)
      ensures dupeVerts == old(dupeVerts) && degenerate == old(degenerate)
      ensures yPolylines == old(yPolylines) && centroid == old(centroid)
    {
      if bbox.None? {
        var r := PyBox.FromPoints(verts);
        bbox := Some(r.value);
      }
      b := bbox.value;
      PyBox.BoundsOfTight(verts);
    }

    /** _split_y_polylines, storing the pair. */
    method SplitYPolylines()
      requires Valid()
      modifies this
      ensures Valid() && yPolylines == Some((LeftChain(verts), RightChain(verts)))
      ensures verts == old(verts) && convex == old(convex) && simple == old(simple)
      ensures dupeVerts == old(dupeVerts) && degenerate == old(degenerate)
      ensures bbox == old(bbox) && centroid == old(centroid)
    {
      var left, right := SplitPolylines(verts);
      yPolylines := Some((left, right));
    }

    /**
     * _classify: convex when the turns agree and the direction reverses
     * at most twice; simple only when convex, degenerate when no edge is
     * non-zero or no turn has a sign; a convex polygon that is not
     * degenerate also records whether some vertex repeats and splits its
     * polylines.  The source runs it while convexity is unknown.
     */
    method Classify()
      requires Valid() && convex.None?
      modifies this`convex, this`simple, this`degenerate, this`dupeVerts, this`yPolylines
      ensures Valid()
      ensures Classified(verts, old(dupeVerts), old(yPolylines), convex, simple, degenerate, dupeVerts, yPolylines)
    {
      var c, sm, d, dupe, polylines := ClassifyValues(verts, dupeVerts, yPolylines);
      convex, simple, degenerate, dupeVerts, yPolylines := c, sm, d, dupe, polylines;
    }

    /** is_convex: the known value, or the one _classify finds. */
    method ConvexProperty() returns (b: bool)
      requires Valid()
      modifies this
      ensures Valid() && verts == old(verts) && convex == Some(b)
      ensures old(convex).Some? ==> b == old(convex).value && unchanged(this)
      ensures old(convex).None? ==> b == IsConvex(PyScan(verts))
      ensures bbox == old(bbox) && centroid == old(centroid)
    {
      if convex.None? {
        Classify();
      }
      b := convex.value;
    }

    /**
     * _check_is_simple over the sort of its event list (a parameter): the
     * verdict is cached, and a polygon reported not simple has two
     * non-adjacent edges that intersect.  The source runs it while
     * simplicity is unknown.
     */
    method CheckIsSimple(events: seq<Sweep.Event>) returns (b: bool)
      requires Valid() && simple.None? && Sweep.SortedEvents(verts, events)
      modifies this
      ensures Valid() && simple == Some(b)
      ensures !b ==> !IsSimpleSpec(verts)
      ensures verts == old(verts) && convex == old(convex)
      ensures dupeVerts == old(dupeVerts) && degenerate == old(degenerate)
      ensures yPolylines == old(yPolylines) && bbox == old(bbox) && centroid == old(centroid)
    {
      b := Sweep.PyCheckIsSimple(verts, events);
      simple := Some(b);
    }

    /**
     * is_simple: the known value; otherwise classify while convexity is
     * unknown (a convex polygon is simple) and sweep while simplicity
     * still is.
     */
    method SimpleProperty(events: seq<Sweep.Event>) returns (b: bool)
      requires Valid() && Sweep.SortedEvents(verts, events)
      modifies this
      ensures Valid() && verts == old(verts) && simple == Some(b)
      ensures old(simple).Some? ==> b == old(simple).value && unchanged(this)
      ensures old(simple).None? && old(convex).None? && IsConvex(PyScan(verts)) ==> b
      ensures old(simple).None? && !b ==> !IsSimpleSpec(verts)
      ensures bbox == old(bbox) && centroid == old(centroid)
    {
      if simple.None? {
        if convex.None? {
          Classify();
        }
        if simple.None? {
          b := CheckIsSimple(events);
        }
      }
      b := simple.value;
    }

    /**
     * centroid: the cached value; otherwise None for a polygon that is
     * not simple, and for a simple one the fan centroid, cached.  A simple
     * polygon of zero area divides by zero (ZeroDivisionError) and caches
     * no centroid.
     */
    method CentroidProperty(events: seq<Sweep.Event>) returns (r: Result<Option<Vec2>>)
      requires Valid() && Sweep.SortedEvents(verts, events)
      modifies this
      ensures Valid() && verts == old(verts)
      ensures old(centroid).Some? ==> r == Ok(old(centroid).value) && unchanged(this)
      ensures old(centroid).None? ==> simple.Some? && (r == Ok(None) <==> simple == Some(false))
      ensures old(centroid).None? && simple == Some(true) ==>
        r == (if FanCentroid(verts).Ok? then Ok(Some(FanCentroid(verts).value)) else Err(ZeroDivisionError))
      ensures old(centroid).None? && old(simple).None? && r == Ok(None) ==> !IsSimpleSpec(verts)
      ensures r.Ok? ==> centroid == Some(r.value)
      ensures r.Err? ==> r.error == ZeroDivisionError && centroid.None?
    {
      if centroid.None? {
        var isSimple := SimpleProperty(events);
        if isSimple {
          var sums := SumFan(verts);
          var totalArea := sums.1;
          if totalArea == 0.0 {
            return Err(ZeroDivisionError);
          }
          centroid := Some(Some(Vec2(sums.0.x / (3.0 * totalArea), sums.0.y / (3.0 * totalArea))));
        } else {
          centroid := Some(None);
        }
      }
      r := Ok(centroid.value);
    }
  
    /**
     * __eq__: the same length and either the same object, the same
     * vertex list, or the same tagged trigram set (a trigram seen c times
     * carries the tags 0 .. c - 1) read forward or with the winding
     * reversed.  This is equality of the vertex triple multisets, so it
     * ignores the start vertex and the winding.
     */
    method Equals(other: Polygon) returns (eq: bool)
      ensures eq <==> SameShape(verts, other.verts)
    {
      var a, b := verts, other.verts;
      var n := |a|;
      if n != |b| {
        return false;
      }
      if this == other {
        return true;
      }
      var i := 0;
      while i < n && a[i] == b[i]
        invariant 0 <= i <= n && a[..i] == b[..i]
      {
        i := i + 1;
      }
      if i == n {
        assert a == a[..n] && b == b[..n];
        return true;
      }
      assert a != b;
      PyTriplesMultiset(a);
      PyTriplesMultiset(b);
      PyFlippedTriplesMultiset(b);
      var selfEdges := TagTrigrams(a);
      var complete, otherEdges := TagTrigramsWithin(b, false, selfEdges, PyTriples(a));
      if complete {
        TagsEqual(PyTriples(a), PyTriples(b));
        if selfEdges == otherEdges {
          return true;
        }
      }
      complete, otherEdges := TagTrigramsWithin(b, true, selfEdges, PyTriples(a));
      if !complete {
        return false;
      }
      TagsEqual(PyTriples(a), PyFlippedTriples(b));
      return selfEdges == otherEdges;
    }

    /**
     * _pnp_winding_test: the signed count of the edges (from the last
     * vertex round) that cross pt's horizontal, upward with pt on or right
     * of the edge or downward with pt on or left of it; inside when it is
     * not zero.
     */
    method WindingTest(pt: Vec2) returns (inside: bool)
      requires |verts| >= 1
      ensures inside == (WindingNumber(verts, pt) != 0)
    {
      var n := |verts|;
      var windingNo := 0;
      var v0 := verts[n - 1];
      var v0Above := v0.y >= pt.y;
      var k := 0;
      while k < n
        invariant 0 <= k <= n
        invariant windingNo == WindingPrefix(verts, pt, k)
        invariant v0 == verts[if k == 0 then n - 1 else k - 1]
        invariant v0Above == (v0.y >= pt.y)
      {
        var v1 := verts[k];
        var v1Above := v1.y >= pt.y;
        if v0Above != v1Above {
          if v1Above {
            if Side(v0, v1, pt) <= 0.0 {
              windingNo := windingNo + 1;
            }
          } else {
            if Side(v0, v1, pt) >= 0.0 {
              windingNo := windingNo - 1;
            }
          }
        }
        v0Above := v1Above;
        v0 := v1;
        k := k + 1;
      }
      inside := windingNo != 0;
    }

    /**
     * _pnp_y_monotone_test: unpacking the polylines raises TypeError when
     * they were never split; otherwise the bisection test over the left
     * and right polylines, which decides PyChainInside when both ascend.
     */
    method MonotoneTest(pt: Vec2) returns (r: Result<bool>)
      requires Valid()
      ensures yPolylines.None? <==> r == Err(TypeError)
      ensures r.Err? ==> r.error == TypeError || r.error == IndexError
      ensures yPolylines.Some? && AscendingY(LeftChain(verts), 0, |LeftChain(verts)|) &&
              AscendingY(RightChain(verts), 0, |RightChain(verts)|) ==>
        r == Ok(PyChainInside(LeftChain(verts), RightChain(verts), pt))
    {
      if yPolylines.None? {
        return Err(TypeError);
      }
      var lpline, rpline := yPolylines.value.0, yPolylines.value.1;
      PolylinesEnds(verts, Extremes(verts));
      r := PyChainTest(lpline, rpline, pt);
    }

    /**
     * _pt_tangents: the scan from self[-2], self[-1] round the polygon,
     * both tangents starting at self[0]; it computes TangentsOf, whose
     * tangents are vertices.
     */
    method PtTangents(pt: Vec2) returns (leftTan: Vec2, rightTan: Vec2)
      requires |verts| >= 2
      ensures Tangents(leftTan, rightTan) == TangentsOf(verts, pt)
    {
      var n := |verts|;
      leftTan, rightTan := verts[0], verts[0];
      var v0, v1 := verts[n - 2], verts[n - 1];
      var prevTurn := Side(v0, v1, pt);
      v0 := v1;
      var j := 0;
      while j < n
        invariant 0 <= j <= n
        invariant Tangents(leftTan, rightTan) == TangentsPrefix(verts, pt, j)
        invariant v0 == verts[if j == 0 then n - 1 else j - 1]
        invariant prevTurn == Side(verts[if j == 0 then n - 2 else Prev(j - 1, n)], v0, pt)
      {
        v1 := verts[j];
        var nextTurn := Side(v0, v1, pt);
        if prevTurn <= 0.0 && nextTurn > 0.0 {
          if Side(pt, v0, rightTan) >= 0.0 {
            rightTan := v0;
          }
        } else if prevTurn > 0.0 && nextTurn <= 0.0 {
          if Side(pt, v0, leftTan) <= 0.0 {
            leftTan := v0;
          }
        }
        v0 := v1;
        prevTurn := nextTurn;
        j := j + 1;
      }
    }

    /**
     * convex_hull of a list of points: the points of the adaptive quick
     * hull made a polygon declared convex.  An empty list raises IndexError
     * and a hull of fewer than three points (a single point gives two)
     * ValueError; otherwise every vertex is an input point, and the first
     * is the first point of least x.
     */
    static method ConvexHullOfPoints(points: seq<Vec2>) returns (r: Result<Polygon>)
      ensures |points| == 0 ==> r == Err(IndexError)
      ensures |points| == 1 ==> r == Err(ValueError)
      ensures r.Err? ==> r.error == (if |points| == 0 then IndexError else ValueError)
      ensures r.Ok? ==> fresh(r.value) && r.value.Valid() && r.value.convex == Some(true)
      ensures r.Ok? ==> forall q :: q in r.value.verts ==> q in points
      ensures r.Ok? ==> r.value.verts[0] == PyHull.FirstLeastX(points)
    {
      var hull := PyHull.AdaptiveQuickHull(points);
      if hull.Err? {
        return Err(hull.error);
      }
      r := New(hull.value, Some(true), None);
    }

    /**
     * convex_hull of a polygon: one known to be convex is copied, caches
     * and all; any other is the hull of its vertices.
     */
    static method ConvexHullOfPolygon(poly: Polygon) returns (r: Result<Polygon>)
      requires poly.Valid()
      ensures poly.convex == Some(true) ==> r.Ok? && fresh(r.value) && r.value.verts == poly.verts
      ensures poly.convex == Some(true) ==>
        (r.value.convex == poly.convex && r.value.simple == poly.simple &&
         r.value.yPolylines == poly.yPolylines && r.value.bbox == poly.bbox && r.value.centroid == poly.centroid)
      ensures r.Err? ==> r.error == ValueError
      ensures r.Ok? ==> fresh(r.value) && r.value.Valid() && r.value.convex == Some(true)
      ensures r.Ok? ==> forall q :: q in r.value.verts ==> q in poly.verts
    {
      if poly.convex == Some(true) {
        var c := poly.Copy();
        return Ok(c);
      }
      r := ConvexHullOfPoints(poly.verts);
    }

    /** __copy__: from_points on the vertices, then every cache copied over. */
    method Copy() returns (c: Polygon)
      ensures fresh(c) && c.verts == verts
      ensures c.convex == convex && c.simple == simple
      ensures c.dupeVerts == dupeVerts && c.degenerate == degenerate
      ensures c.yPolylines == yPolylines && c.bbox == bbox && c.centroid == centroid
      ensures Valid() ==> c.Valid()
    {
      c := new Polygon.FromPoints(verts);
      c.convex, c.simple := convex, simple;
      c.yPolylines := yPolylines;
      c.dupeVerts, c.degenerate := dupeVerts, degenerate;
      c.bbox := bbox;
      c.centroid := centroid;
    }

    /** __deepcopy__: the copy without the polylines and the box. */
    method DeepCopy() returns (c: Polygon)
      ensures fresh(c) && c.verts == verts
      ensures c.convex == convex && c.simple == simple
      ensures c.dupeVerts == dupeVerts && c.degenerate == degenerate
      ensures c.yPolylines.None? && c.bbox.None? && c.centroid == centroid
      ensures Valid() ==> c.Valid()
    {
      c := Copy();
      c.yPolylines := None;
      c.bbox := None;
    }
  }

  /**
   * BoundingBox.to_polygon: the four corners from the minimum, going
   * up the left side first, declared convex.
   */
  method BoxToPolygon(b: BBox) returns (p: Polygon)
    ensures fresh(p) && p.Valid()
    ensures p.verts == PyBox.Corners(b)
    ensures p.convex == Some(true) && p.simple == Some(true)
  {
    var r := Polygon.New([b.min, Vec2(b.min.x, b.max.y), b.max, Vec2(b.max.x, b.min.y)], Some(true), None);
    p := r.value;
  }
}

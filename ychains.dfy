/**
 * The two y-monotone polylines of a polygon (split_y_polylines in
 * cpolygon.c, _split_y_polylines in polygon.py) and the upper-bound
 * binary search that the y-monotone point test runs over each of them.
 */
module YChains {
  import opened Wrappers
  import opened Planar
  import opened PolySpec

  /** The indices of the lowest, highest, leftmost and rightmost vertices. */
  datatype Ext = Ext(min: nat, max: nat, left: nat, right: nat)

  /** One vertex of the scan: each index moves only on a strict improvement. */
  function ExtStep(verts: seq<Vec2>, e: Ext, i: nat): Ext
    requires e.min < |verts| && e.max < |verts| && e.left < |verts| && e.right < |verts| && i < |verts|
  {
    var v := verts[i];
    Ext(if v.y < verts[e.min].y then i else e.min,
        if v.y > verts[e.max].y then i else e.max,
        if v.x < verts[e.left].x then i else e.left,
        if v.x > verts[e.right].x then i else e.right)
  }

  /** The scan over vertices 0 .. k - 1, starting with all four at vertex 0. */
  function ExtremesOf(verts: seq<Vec2>, k: nat): (e: Ext)
    requires 1 <= k <= |verts|
    ensures e.min < k && e.max < k && e.left < k && e.right < k
  {
    if k == 1 then Ext(0, 0, 0, 0) else ExtStep(verts, ExtremesOf(verts, k - 1), k - 1)
  }

  function Extremes(verts: seq<Vec2>): Ext
    requires 1 <= |verts|
  {
    ExtremesOf(verts, |verts|)
  }

  /** The scan finds a vertex of least y and one of greatest y. */
  lemma {:induction false} ExtremesOfBound(verts: seq<Vec2>, k: nat)
    requires 1 <= k <= |verts|
    ensures var e := ExtremesOf(verts, k);
      forall j :: 0 <= j < k ==> verts[e.min].y <= verts[j].y <= verts[e.max].y
  {
    if k > 1 {
      ExtremesOfBound(verts, k - 1);
    }
  }

  /** The first polyline: min up to max when min < max, else min down to max. */
  function Pl1(verts: seq<Vec2>, e: Ext): seq<Vec2>
    requires e.min < |verts| && e.max < |verts|
  {
    if e.min < e.max then verts[e.min..e.max + 1] else Reverse(verts[e.max..e.min + 1])
  }

  /** The second polyline: from min the other way round the polygon to max. */
  function Pl2(verts: seq<Vec2>, e: Ext): seq<Vec2>
    requires e.min < |verts| && e.max < |verts|
  {
    if e.min < e.max then Reverse(verts[..e.min + 1]) + Reverse(verts[e.max..])
    else verts[e.min..] + verts[..e.max + 1]
  }

  /** Which polyline is the left one, by where the leftmost and rightmost vertices fall. */
  predicate Pl1IsLeft(e: Ext) {
    if e.min < e.max then (e.min <= e.left < e.max) || e.right < e.min || e.right > e.max
    else (e.min >= e.left > e.max) || e.right > e.min || e.right < e.max
  }

  function LeftChain(verts: seq<Vec2>): seq<Vec2>
    requires 1 <= |verts|
  {
    var e := Extremes(verts);
    if Pl1IsLeft(e) then Pl1(verts, e) else Pl2(verts, e)
  }

  function RightChain(verts: seq<Vec2>): seq<Vec2>
    requires 1 <= |verts|
  {
    var e := Extremes(verts);
    if Pl1IsLeft(e) then Pl2(verts, e) else Pl1(verts, e)
  }

  /** Both polylines run from the lowest vertex to the highest. */
  lemma PolylinesEnds(verts: seq<Vec2>, e: Ext)
    requires e.min < |verts| && e.max < |verts|
    ensures |Pl1(verts, e)| == if e.min < e.max then e.max - e.min + 1 else e.min - e.max + 1
    ensures |Pl2(verts, e)| == if e.min < e.max then |verts| - e.max + e.min + 1 else |verts| - e.min + e.max + 1
    ensures Pl1(verts, e)[0] == verts[e.min] && Pl2(verts, e)[0] == verts[e.min]
    ensures Pl1(verts, e)[|Pl1(verts, e)| - 1] == verts[e.max]
    ensures Pl2(verts, e)[|Pl2(verts, e)| - 1] == verts[e.max]
  {
  }

  /** Cutting at i <= j, the middle piece and the two outer ones hold verts[i] and verts[j] twice. */
  lemma CutPieces(verts: seq<Vec2>, i: nat, j: nat)
    requires i <= j < |verts|
    ensures multiset(verts[i..j + 1]) + multiset(verts[..i + 1]) + multiset(verts[j..])
         == multiset(verts) + multiset{verts[i], verts[j]}
  {
    var a := verts[i..j + 1];
    assert verts == verts[..i] + a + verts[j + 1..];
    assert verts[..i + 1] == verts[..i] + [verts[i]];
    assert verts[j..] == [verts[j]] + verts[j + 1..];
    assert multiset(verts) == multiset(verts[..i]) + multiset(a) + multiset(verts[j + 1..]);
  }

  /** Min before max: the middle piece forwards, the outer pieces backwards, lose nothing. */
  lemma CutCoverUp(verts: seq<Vec2>, e: Ext)
    requires e.min < e.max < |verts|
    ensures multiset(Pl1(verts, e) + Pl2(verts, e)) == multiset(verts) + multiset{verts[e.min], verts[e.max]}
  {
    var a, p, q := verts[e.min..e.max + 1], verts[..e.min + 1], verts[e.max..];
    assert Pl1(verts, e) == a;
    assert Pl2(verts, e) == Reverse(p) + Reverse(q);
    ReverseMultiset(p);
    ReverseMultiset(q);
    CutPieces(verts, e.min, e.max);
    assert multiset(a + (Reverse(p) + Reverse(q))) == multiset(a) + multiset(p) + multiset(q);
  }

  /** Max before min: the middle piece backwards, the outer pieces forwards, lose nothing. */
  lemma CutCoverDown(verts: seq<Vec2>, e: Ext)
    requires e.max <= e.min < |verts|
    ensures multiset(Pl1(verts, e) + Pl2(verts, e)) == multiset(verts) + multiset{verts[e.max], verts[e.min]}
  {
    var a, p, q := verts[e.max..e.min + 1], verts[..e.max + 1], verts[e.min..];
    assert Pl1(verts, e) == Reverse(a);
    assert Pl2(verts, e) == q + p;
    ReverseMultiset(a);
    CutPieces(verts, e.max, e.min);
    assert multiset(Reverse(a) + (q + p)) == multiset(a) + multiset(p) + multiset(q);
  }

  /** Split at min and max, the polylines share those two vertices and nothing else. */
  lemma PolylinesCover(verts: seq<Vec2>, e: Ext)
    requires e.min < |verts| && e.max < |verts|
    ensures multiset(Pl1(verts, e) + Pl2(verts, e)) == multiset(verts) + multiset{verts[e.min], verts[e.max]}
  {
    if e.min < e.max {
      CutCoverUp(verts, e);
    } else {
      CutCoverDown(verts, e);
    }
  }

  /**
   * The split buffer: the left polyline, then the right one; together they
   * hold every vertex once and the two shared end vertices once more, n + 2
   * points in all.
   */
  lemma ChainsSpan(verts: seq<Vec2>)
    requires 1 <= |verts|
    ensures |LeftChain(verts)| + |RightChain(verts)| == |verts| + 2
    ensures |LeftChain(verts)| >= 1 && |RightChain(verts)| >= 1
    ensures LeftChain(verts)[0] == RightChain(verts)[0] == verts[Extremes(verts).min]
    ensures LeftChain(verts)[|LeftChain(verts)| - 1] == RightChain(verts)[|RightChain(verts)| - 1] == verts[Extremes(verts).max]
    ensures multiset(LeftChain(verts) + RightChain(verts)) == multiset(verts) + multiset{verts[Extremes(verts).min], verts[Extremes(verts).max]}
  {
    var e := Extremes(verts);
    PolylinesEnds(verts, e);
    PolylinesCover(verts, e);
    var p1, p2 := Pl1(verts, e), Pl2(verts, e);
    if Pl1IsLeft(e) {
      assert LeftChain(verts) == p1 && RightChain(verts) == p2;
    } else {
      assert LeftChain(verts) == p2 && RightChain(verts) == p1;
      assert multiset(p2 + p1) == multiset(p2) + multiset(p1) == multiset(p1 + p2);
    }
  }

  /**
   * A polyline of one vertex happens only when the lowest and the highest
   * vertex are the same one, that is when every vertex has the same y.
   */
  lemma SingleVertexChainIsFlat(verts: seq<Vec2>)
    requires 1 <= |verts| && (|LeftChain(verts)| == 1 || |RightChain(verts)| == 1)
    ensures forall j :: 0 <= j < |verts| ==> verts[j].y == verts[0].y
  {
    var e := Extremes(verts);
    ExtremesOfBound(verts, |verts|);
    PolylinesEnds(verts, e);
    assert e.min == e.max;
  }

  // ---------------------------------------------------------------
  // Upper-bound search
  // ---------------------------------------------------------------

  /**
   * q is strictly above height y: in the C test pt_y < v->y; in the Python
   * one the tuple (y,) sorts before (v.y, v.x), which holds when y <= v.y.
   */
  predicate Above(y: real, q: Vec2, tuples: bool) {
    if tuples then y <= q.y else y < q.y
  }

  /**
   * lo is where the search over a[start .. end) stops for height y: every
   * probe left of it was not above y and every probe at or right of it,
   * up to end, was.  On a list ascending in y it is the first vertex
   * above y.
   */
  predicate Bracket(a: seq<Vec2>, start: nat, end: nat, lo: nat, y: real, tuples: bool)
    requires start <= end <= |a|
  {
    start <= lo <= end &&
    (lo == start || !Above(y, a[lo - 1], tuples)) &&
    (lo == end || Above(y, a[lo], tuples))
  }

  /** The bisection of the y-monotone test (and of bisect.bisect_right). */
  method UpperBound(a: seq<Vec2>, start: nat, end: nat, y: real, tuples: bool) returns (lo: nat)
    requires start <= end <= |a|
    ensures Bracket(a, start, end, lo, y, tuples)
  {
    lo := start;
    var hi := end;
    while lo < hi
      invariant start <= lo <= hi <= end
      invariant lo == start || !Above(y, a[lo - 1], tuples)
      invariant hi == end || Above(y, a[hi], tuples)
    {
      var mid := lo + (hi - lo) / 2;
      if Above(y, a[mid], tuples) {
        hi := mid;
      } else {
        lo := mid + 1;
      }
    }
  }

  /**
   * On a list ascending in y the search splits it: nothing before the
   * stopping place is above y and everything from it on is.
   */
  lemma BracketSplits(a: seq<Vec2>, start: nat, end: nat, lo: nat, y: real, tuples: bool)
    requires start <= end <= |a|
    requires forall i, j :: start <= i < j < end ==> a[i].y <= a[j].y
    requires Bracket(a, start, end, lo, y, tuples)
    ensures forall i :: start <= i < lo ==> !Above(y, a[i], tuples)
    ensures forall i :: lo <= i < end ==> Above(y, a[i], tuples)
  {
    forall i | start <= i < lo
      ensures !Above(y, a[i], tuples)
    {
      assert a[i].y <= a[lo - 1].y;
    }
    forall i | lo <= i < end
      ensures Above(y, a[i], tuples)
    {
      assert a[lo].y <= a[i].y;
    }
  }

  /** The first index in [start, end) whose vertex is above y, or end: the linear reference for the search. */
  function FirstAbove(a: seq<Vec2>, start: nat, end: nat, y: real, tuples: bool): (r: nat)
    requires start <= end <= |a|
    ensures start <= r <= end
    ensures forall i :: start <= i < r ==> !Above(y, a[i], tuples)
    ensures r < end ==> Above(y, a[r], tuples)
    decreases end - start
  {
    if start == end || Above(y, a[start], tuples) then start else FirstAbove(a, start + 1, end, y, tuples)
  }

  predicate AscendingY(a: seq<Vec2>, start: nat, end: nat)
    requires start <= end <= |a|
  {
    forall i, j :: start <= i < j < end ==> a[i].y <= a[j].y
  }

  /** On an ascending list the bisection stops where the linear scan does. */
  lemma SearchFindsFirst(a: seq<Vec2>, start: nat, end: nat, lo: nat, y: real, tuples: bool)
    requires start <= end <= |a|
    requires AscendingY(a, start, end) && Bracket(a, start, end, lo, y, tuples)
    ensures lo == FirstAbove(a, start, end, y, tuples)
  {
    BracketSplits(a, start, end, lo, y, tuples);
  }

  // ---------------------------------------------------------------
  // The y-monotone point test over the split buffer (pnp_y_monotone_test)
  // ---------------------------------------------------------------

  /**
   * What the C test decides on a buffer whose two polylines ascend in y
   * (the left one in buf[..rt], the right one in buf[rt..]): pt is within
   * their height, on or right of the left polyline's edge at pt's height,
   * and strictly left of the right polyline's.
   */
  predicate ChainInside(buf: seq<Vec2>, rt: nat, pt: Vec2)
    requires 1 <= rt < |buf|
  {
    var y := pt.y;
    buf[0].y <= y <= buf[rt - 1].y &&
    (var i := FirstAbove(buf, 0, rt - 1, y, false);
     0 < i && Side(buf[i - 1], buf[i], pt) <= 0.0) &&
    (var j := FirstAbove(buf, rt, |buf| - 1, y, false);
     Side(buf[j - 1], buf[j], pt) > 0.0)
  }

  /**
   * pnp_y_monotone_test as written.  When the left polyline is a single
   * vertex and pt is at its height the first search stops at the start of
   * the buffer and SIDE(lo - 1, lo, pt) reads the point before it; the
   * model answers None there.
   */
  method ChainTestAsWritten(buf: seq<Vec2>, rt: nat, pt: Vec2) returns (r: Option<bool>)
    requires 1 <= rt < |buf|
    ensures r.None? <==> rt == 1 && pt.y == buf[0].y
    ensures pt.y < buf[0].y || pt.y > buf[rt - 1].y ==> r == Some(false)
    ensures r.Some? && AscendingY(buf, 0, rt) && AscendingY(buf, rt, |buf|) ==> r.value == ChainInside(buf, rt, pt)
  {
    var y := pt.y;
    if y < buf[0].y || y > buf[rt - 1].y {
      return Some(false);
    }
    var lo := UpperBound(buf, 0, rt - 1, y, false);
    if lo == 0 {
      return None;
    }
    if AscendingY(buf, 0, rt) {
      SearchFindsFirst(buf, 0, rt - 1, lo, y, false);
    }
    if Side(buf[lo - 1], buf[lo], pt) > 0.0 {
      return Some(false);
    }
    var hi := UpperBound(buf, rt, |buf| - 1, y, false);
    if AscendingY(buf, rt, |buf|) {
      SearchFindsFirst(buf, rt, |buf| - 1, hi, y, false);
    }
    return Some(Side(buf[hi - 1], buf[hi], pt) > 0.0);
  }

  /**
   * What the test answers on buf split at rt (each polyline non-empty):
   * outside when the left polyline has no edge or pt is below or above
   * it, and on polylines that ascend in y exactly ChainInside.
   */
  predicate ChainAnswer(buf: seq<Vec2>, rt: nat, pt: Vec2, inside: bool) {
    1 <= rt < |buf| &&
    (rt == 1 || pt.y < buf[0].y || pt.y > buf[rt - 1].y ==> !inside) &&
    (AscendingY(buf, 0, rt) && AscendingY(buf, rt, |buf|) ==> inside == ChainInside(buf, rt, pt))
  }

  /**
   * The test with the missing case handled: a left polyline of one vertex
   * has no edge, and the point is outside.
   */
  method ChainTest(buf: seq<Vec2>, rt: nat, pt: Vec2) returns (inside: bool)
    requires 1 <= rt < |buf|
    ensures ChainAnswer(buf, rt, pt, inside)
  {
    var y := pt.y;
    if y < buf[0].y || y > buf[rt - 1].y {
      return false;
    }
    var lo := UpperBound(buf, 0, rt - 1, y, false);
    if lo == 0 {
      return false;
    }
    if AscendingY(buf, 0, rt) {
      SearchFindsFirst(buf, 0, rt - 1, lo, y, false);
    }
    if Side(buf[lo - 1], buf[lo], pt) > 0.0 {
      return false;
    }
    var hi := UpperBound(buf, rt, |buf| - 1, y, false);
    if AscendingY(buf, rt, |buf|) {
      SearchFindsFirst(buf, rt, |buf| - 1, hi, y, false);
    }
    return Side(buf[hi - 1], buf[hi], pt) > 0.0;
  }

  /**
   * What _pnp_y_monotone_test decides on two polylines that ascend in y:
   * bisect_right on (py,) finds the first vertex at or above pt, and a
   * point at or below the bottom vertex, or above the top one, is outside.
   */
  predicate PyChainInside(lp: seq<Vec2>, rp: seq<Vec2>, pt: Vec2) {
    var y := pt.y;
    var i := FirstAbove(lp, 0, |lp|, y, true);
    0 < i < |lp| && Side(lp[i - 1], lp[i], pt) <= 0.0 &&
    (var j := FirstAbove(rp, 0, |rp|, y, true);
     0 < j < |rp| && Side(rp[j - 1], rp[j], pt) > 0.0)
  }

  /** Python indexing: a negative index counts from the end. */
  function PyAt(s: seq<Vec2>, k: int): Result<Vec2> {
    if 0 <= k < |s| then Ok(s[k])
    else if -|s| <= k < 0 then Ok(s[|s| + k])
    else Err(IndexError)
  }

  /**
   * _pnp_y_monotone_test.  On the right polyline the source does not check
   * the search result, and rpline[i] raises IndexError when the search runs
   * off its end; when both polylines run between the same two ascending
   * ends that cannot happen.
   */
  method PyChainTest(lp: seq<Vec2>, rp: seq<Vec2>, pt: Vec2) returns (r: Result<bool>)
    ensures r.Err? ==> r.error == IndexError
    ensures (AscendingY(lp, 0, |lp|) && AscendingY(rp, 0, |rp|) && 0 < |lp| && 0 < |rp| &&
             lp[0].y == rp[0].y && lp[|lp| - 1].y == rp[|rp| - 1].y) ==> r == Ok(PyChainInside(lp, rp, pt))
  {
    var y := pt.y;
    var i := UpperBound(lp, 0, |lp|, y, true);
    if i == 0 || i == |lp| {
      return Ok(false);
    }
    if AscendingY(lp, 0, |lp|) {
      SearchFindsFirst(lp, 0, |lp|, i, y, true);
    }
    if Side(lp[i - 1], lp[i], pt) > 0.0 {
      return Ok(false);
    }
    var j := UpperBound(rp, 0, |rp|, y, true);
    if AscendingY(rp, 0, |rp|) {
      SearchFindsFirst(rp, 0, |rp|, j, y, true);
    }
    var v0 := PyAt(rp, j as int - 1);
    var v1 := PyAt(rp, j);
    if v0.Err? || v1.Err? {
      return Err(IndexError);
    }
    return Ok(Side(v0.value, v1.value, pt) > 0.0);
  }
}

/**
 * The self-intersection checks: Poly_check_is_simple of cpolygon.c (one
 * sweep event per edge, at its first vertex in sorted order), a
 * brute-force reference check, and the two-events-per-edge sweep of
 * Polygon._check_is_simple in polygon.py.
 */
module Sweep {
  import opened Planar
  import opened PolySpec

  // ---------------------------------------------------------------
  // cpolygon.c: Poly_check_is_simple
  // ---------------------------------------------------------------

  /**
   * What qsort with compare_vec_lexi leaves in the points buffer: every
   * vertex index once, in lexicographic order of the vertices.
   */
  predicate SortedOrder(verts: seq<Vec2>, order: seq<nat>) {
    |order| == |verts| &&
    (forall k :: 0 <= k < |order| ==> order[k] < |verts|) &&
    (forall k, l :: 0 <= k < l < |order| ==> order[k] != order[l]) &&
    (forall k :: 0 <= k < |order| - 1 ==> CompareLexi(verts[order[k]], verts[order[k + 1]]) <= 0)
  }

  /**
   * The C sweep from point order[pi], open segment slot o, with the open
   * list `open` (segment k runs from vertex k to vertex k + 1).  A point
   * that ends an open segment removes it by moving the last open segment
   * into its slot, which is then examined again; any other open segment
   * that is not a neighbour is tested for intersection with the segment
   * starting at the point.  The point's own segment is opened afterwards.
   */
  function SweepFrom(verts: seq<Vec2>, order: seq<nat>, pi: nat, open: seq<nat>, o: nat): bool
    requires pi <= |order|
    requires forall k :: 0 <= k < |order| ==> order[k] < |verts|
    requires forall k :: 0 <= k < |open| ==> open[k] < |verts|
    decreases |order| - pi, |open|, |open| - o
  {
    var n := |verts|;
    if pi == |order| then true
    else if o >= |open| then SweepFrom(verts, order, pi + 1, open + [order[pi]], 0)
    else
      var p, q := order[pi], open[o];
      if p == q + 1 || q == p + n - 1 then
        var e := |open| - 1;
        if o < e && open[o] != open[e] then SweepFrom(verts, order, pi, open[..e][o := open[e]], o)
        else SweepFrom(verts, order, pi, open[..e], o + 1)
      else if NonAdjacent(p, q, n) && SegmentsIntersect(verts[p], verts[Next(p, n)], verts[q], verts[Next(q, n)]) then false
      else SweepFrom(verts, order, pi, open, o + 1)
  }

  /** The C result: true when the sweep finds no intersection. */
  function SweepAsWritten(verts: seq<Vec2>, order: seq<nat>): bool
    requires SortedOrder(verts, order)
  {
    SweepFrom(verts, order, 0, [], 0)
  }

  /** Whatever the C sweep reports as an intersection is one. */
  lemma {:induction false} SweepFromSound(verts: seq<Vec2>, order: seq<nat>, pi: nat, open: seq<nat>, o: nat)
    requires pi <= |order|
    requires forall k :: 0 <= k < |order| ==> order[k] < |verts|
    requires forall k :: 0 <= k < |open| ==> open[k] < |verts|
    ensures !SweepFrom(verts, order, pi, open, o) ==> !IsSimpleSpec(verts)
    decreases |order| - pi, |open|, |open| - o
  {
    var n := |verts|;
    if pi == |order| {
    } else if o >= |open| {
      SweepFromSound(verts, order, pi + 1, open + [order[pi]], 0);
    } else {
      var p, q := order[pi], open[o];
      if p == q + 1 || q == p + n - 1 {
        var e := |open| - 1;
        if o < e && open[o] != open[e] {
          SweepFromSound(verts, order, pi, open[..e][o := open[e]], o);
        } else {
          SweepFromSound(verts, order, pi, open[..e], o + 1);
        }
      } else if NonAdjacent(p, q, n) && SegmentsIntersect(verts[p], verts[Next(p, n)], verts[q], verts[Next(q, n)]) {
        assert EdgesCross(verts, p, q);
      } else {
        SweepFromSound(verts, order, pi, open, o + 1);
      }
    }
  }

  lemma SweepAsWrittenSound(verts: seq<Vec2>, order: seq<nat>)
    requires SortedOrder(verts, order)
    ensures !SweepAsWritten(verts, order) ==> !IsSimpleSpec(verts)
  {
    SweepFromSound(verts, order, 0, [], 0);
  }

  /**
   * Poly_check_is_simple over the sorted point buffer `order`: the open
   * buffer has room for size + 1 segments, and a removal copies the last
   * open segment into the freed slot before that slot is looked at again.
   */
  method CheckIsSimpleAsWritten(verts: seq<Vec2>, order: seq<nat>) returns (simple: bool)
    requires SortedOrder(verts, order)
    ensures simple == SweepAsWritten(verts, order)
    ensures !simple ==> !IsSimpleSpec(verts)
  {
    SweepAsWrittenSound(verts, order);
    var n := |verts|;
    var open := new nat[n + 1];
    var next := 0;
    var pi := 0;
    while pi < n
      invariant 0 <= pi <= n && 0 <= next <= pi
      invariant forall k :: 0 <= k < next ==> open[k] < n
      invariant SweepFrom(verts, order, pi, open[..next], 0) == SweepAsWritten(verts, order)
    {
      var p := order[pi];
      var crossed, rest := CloseAndTest(verts, order, pi, open, next);
      if crossed {
        return false;
      }
      open[rest] := p;
      assert open[..rest + 1] == open[..rest] + [p];
      next := rest + 1;
      pi := pi + 1;
    }
    return true;
  }

  /**
   * The inner loop of Poly_check_is_simple for point order[pi] over the
   * open[..next] segments: it either meets a crossing, or leaves rest
   * open segments and moves on to opening the point's own.
   */
  method CloseAndTest(verts: seq<Vec2>, order: seq<nat>, pi: nat, open: array<nat>, next: nat)
    returns (crossed: bool, rest: nat)
    requires pi < |order| && forall k :: 0 <= k < |order| ==> order[k] < |verts|
    requires next <= open.Length && forall k :: 0 <= k < next ==> open[k] < |verts|
    modifies open
    ensures rest <= next && forall k :: 0 <= k < rest ==> open[k] < |verts|
    ensures crossed ==> !SweepFrom(verts, order, pi, old(open[..next]), 0)
    ensures !crossed ==> SweepFrom(verts, order, pi, old(open[..next]), 0) == SweepFrom(verts, order, pi, open[..rest], rest)
  {
    var n := |verts|;
    var p := order[pi];
    ghost var start := open[..next];
    rest := next;
    var o := 0;
    while o < rest
      invariant 0 <= o <= rest + 1 && rest <= next
      invariant forall k :: 0 <= k < rest ==> open[k] < n
      invariant SweepFrom(verts, order, pi, open[..rest], o) == SweepFrom(verts, order, pi, start, 0)
      decreases rest, rest - o
    {
      var q := open[o];
      if p == q + 1 || q == p + n - 1 {
        rest := rest - 1;
        if o < rest && open[o] != open[rest] {
          ghost var before := open[..rest + 1];
          open[o] := open[rest];
          assert open[..rest] == before[..rest][o := before[rest]];
        } else {
          assert open[..rest + 1][..rest] == open[..rest];
          o := o + 1;
        }
      } else if NonAdjacent(p, q, n) && SegmentsIntersect(verts[p], verts[Next(p, n)], verts[q], verts[Next(q, n)]) {
        return true, rest;
      } else {
        o := o + 1;
      }
    }
    crossed := false;
  }

  /** A pentagon whose first and third edges cross at (1.5, 0). */
  const CrossedPentagon: seq<Vec2> := [Vec2(4.0, 0.0), Vec2(0.0, 0.0), Vec2(1.0, -1.0), Vec2(2.0, 1.0), Vec2(3.0, -3.0)]

  /**
   * Sorted by x the vertices chain 1, 2, 3, 4, 0 along the polygon, so
   * each point closes the only open segment before opening its own: the
   * C sweep never tests a pair, and reports the pentagon simple although
   * edge 0, from (4, 0) to (0, 0), crosses edge 2, from (1, -1) to (2, 1).
   * The x coordinates are distinct, so this is the only sorted order.
   */
  lemma SweepAsWrittenMissesCrossing()
    ensures SortedOrder(CrossedPentagon, [1, 2, 3, 4, 0])
    ensures SweepAsWritten(CrossedPentagon, [1, 2, 3, 4, 0])
    ensures EdgesCross(CrossedPentagon, 0, 2) && !IsSimpleSpec(CrossedPentagon)
  {
    var v, order := CrossedPentagon, [1, 2, 3, 4, 0];
    assert SweepFrom(v, order, 4, [4], 0) == SweepFrom(v, order, 4, [], 1) == SweepFrom(v, order, 5, [0], 0);
    assert SweepFrom(v, order, 3, [3], 0) == SweepFrom(v, order, 3, [], 1) == SweepFrom(v, order, 4, [4], 0);
    assert SweepFrom(v, order, 2, [2], 0) == SweepFrom(v, order, 2, [], 1) == SweepFrom(v, order, 3, [3], 0);
    assert SweepFrom(v, order, 1, [1], 0) == SweepFrom(v, order, 1, [], 1) == SweepFrom(v, order, 2, [2], 0);
    assert SweepFrom(v, order, 0, [], 0) == SweepFrom(v, order, 1, [1], 0);
    assert EdgesCross(v, 0, 2);
  }

  // ---------------------------------------------------------------
  // Reference check, the corrected Poly_check_is_simple
  // ---------------------------------------------------------------

  /** Every pair of non-adjacent edges is tested, so the answer is exact. */
  method CheckIsSimple(verts: seq<Vec2>) returns (simple: bool)
    ensures simple == IsSimpleSpec(verts)
  {
    var n := |verts|;
    var i := 0;
    while i < n
      invariant 0 <= i <= n
      invariant forall a, b :: 0 <= a < i && 0 <= b < n ==> !EdgesCross(verts, a, b)
    {
      var j := 0;
      while j < n
        invariant 0 <= j <= n
        invariant forall a, b :: 0 <= a < i && 0 <= b < n ==> !EdgesCross(verts, a, b)
        invariant forall b :: 0 <= b < j ==> !EdgesCross(verts, i, b)
      {
        if NonAdjacent(i, j, n) && SegmentsIntersect(verts[i], verts[Next(i, n)], verts[j], verts[Next(j, n)]) {
          assert EdgesCross(verts, i, j);
          return false;
        }
        j := j + 1;
      }
      i := i + 1;
    }
    return true;
  }

  // ---------------------------------------------------------------
  // polygon.py: Polygon._check_is_simple
  // ---------------------------------------------------------------

  /** One sweep point: (start, end, index) compared as a tuple. */
  datatype Event = Event(start: Vec2, end: Vec2, index: nat)

  /**
   * Index i stands for the edge from vertex i - 1 to vertex i, once from
   * each end.
   */
  function PyEvents(verts: seq<Vec2>): (r: seq<Event>)
    ensures |r| == 2 * |verts|
  {
    var n := |verts|;
    seq(n, i requires 0 <= i < n => Event(verts[Prev(i, n)], verts[i], i)) +
    seq(n, i requires 0 <= i < n => Event(verts[i], verts[Prev(i, n)], i))
  }

  /** Python's tuple order on events: start point, then end point, then index. */
  predicate EventLe(a: Event, b: Event) {
    var c := CompareLexi(a.start, b.start);
    var d := CompareLexi(a.end, b.end);
    c < 0 || (c == 0 && (d < 0 || (d == 0 && a.index <= b.index)))
  }

  /** What points.sort() leaves: the events, rearranged into tuple order. */
  predicate SortedEvents(verts: seq<Vec2>, events: seq<Event>) {
    multiset(events) == multiset(PyEvents(verts)) &&
    forall k :: 0 <= k < |events| - 1 ==> EventLe(events[k], events[k + 1])
  }

  /** Event e is edge e.index - 1 -> e.index, in one direction or the other. */
  predicate EdgeEvent(verts: seq<Vec2>, e: Event) {
    var n := |verts|;
    e.index < n &&
    (e == Event(verts[Prev(e.index, n)], verts[e.index], e.index) ||
     e == Event(verts[e.index], verts[Prev(e.index, n)], e.index))
  }

  lemma SortedEventsAreEdges(verts: seq<Vec2>, events: seq<Event>)
    requires SortedEvents(verts, events)
    ensures forall k :: 0 <= k < |events| ==> EdgeEvent(verts, events[k])
  {
    forall k | 0 <= k < |events|
      ensures EdgeEvent(verts, events[k])
    {
      assert events[k] in multiset(PyEvents(verts));
      var m :| 0 <= m < |PyEvents(verts)| && PyEvents(verts)[m] == events[k];
    }
  }

  /**
   * Two intersecting events of non-adjacent indices are two crossing
   * edges: index i is edge Prev(i), and shifting both indices by one keeps
   * them non-adjacent.
   */
  lemma EventsCross(verts: seq<Vec2>, e: Event, f: Event)
    requires |verts| >= 3 && EdgeEvent(verts, e) && EdgeEvent(verts, f)
    requires |verts| - 1 > (if e.index < f.index then f.index - e.index else e.index - f.index) > 1
    requires SegmentsIntersect(e.start, e.end, f.start, f.end)
    ensures EdgesCross(verts, Prev(e.index, |verts|), Prev(f.index, |verts|))
  {
    var n := |verts|;
    var i, j := e.index, f.index;
    NextPrev(i, n);
    NextPrev(j, n);
    var a, b, c, d := verts[Prev(i, n)], verts[i], verts[Prev(j, n)], verts[j];
    SegmentsIntersectReversed(a, b, c, d);
    SegmentsIntersectReversed(b, a, c, d);
    SegmentsIntersectReversed(a, b, d, c);
    SegmentsIntersectReversed(b, a, d, c);
    assert SegmentsIntersect(a, b, c, d);
  }

  /**
   * _check_is_simple over the sorted events: the first event of an index
   * is tested against every open segment that is not a neighbour and then
   * opened; the second closes it.  False is reported only for a polygon
   * two of whose non-adjacent edges intersect.
   */
  method PyCheckIsSimple(verts: seq<Vec2>, events: seq<Event>) returns (simple: bool)
    requires |verts| >= 3 && SortedEvents(verts, events)
    ensures !simple ==> !IsSimpleSpec(verts)
  {
    SortedEventsAreEdges(verts, events);
    var last := |verts| - 1;
    var open: map<nat, Event> := map[];
    var k := 0;
    while k < |events|
      invariant 0 <= k <= |events|
      invariant forall i :: i in open ==> open[i].index == i && EdgeEvent(verts, open[i])
    {
      var e := events[k];
      if e.index !in open {
        var rest := open.Values;
        while rest != {}
          invariant forall f :: f in rest ==> f in open.Values
          decreases |rest|
        {
          var f :| f in rest;
          var dist := if e.index < f.index then f.index - e.index else e.index - f.index;
          if last > dist > 1 && SegmentsIntersect(e.start, e.end, f.start, f.end) {
            EventsCross(verts, e, f);
            return false;
          }
          rest := rest - {f};
        }
        open := open[e.index := e];
      } else {
        open := map i | i in open && i != e.index :: open[i];
      }
      k := k + 1;
    }
    return true;
  }
}

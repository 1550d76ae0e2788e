/**
 * The convexity scan of Poly_classify (cpolygon.c) and Polygon._classify
 * (polygon.py), after Graphics Gems IV: one pass over the non-zero edge
 * vectors that counts reversals of the x direction and checks that every
 * turn between consecutive edges has the same sign.  The two sources
 * share one step function; they differ in where the scan starts, in the
 * direction code of the C loop and in whether too many reversals stop
 * the scan early.
 */
module Classify {
  import opened Planar
  import opened PolySpec

  predicate NonZero(d: Vec2) { d.x != 0.0 || d.y != 0.0 }

  /** The turn from edge a to edge b (the z part of their cross product). */
  function Cross(a: Vec2, b: Vec2): real { a.x * b.y - a.y * b.x }

  /** (v < 0) - (v > 0) */
  function NegSign(v: real): int { (if v < 0.0 then 1 else 0) - (if v > 0.0 then 1 else 0) }

  /**
   * The direction code of an edge: 1 when it heads to smaller x, -1 to
   * larger x, and on a vertical edge the same for y.
   */
  function Dir(d: Vec2): int { if d.x != 0.0 then NegSign(d.x) else NegSign(d.y) }

  /**
   * this_dir in the C loop: the x code, plus `(!this_dir) & y_code`.  The
   * bitwise and with 1 keeps only the low bit of the y code, so every
   * vertical edge gets 1 whichever way it heads.
   */
  function DirAsWritten(d: Vec2): int {
    var t := NegSign(d.x);
    t + (if t == 0 then NegSign(d.y) % 2 else 0)
  }

  /** A vertical edge heading to larger y gets the wrong code. */
  lemma DirAsWrittenUpward()
    ensures DirAsWritten(Vec2(0.0, 1.0)) == 1 && Dir(Vec2(0.0, 1.0)) == -1
    ensures forall d: Vec2 :: d.x != 0.0 || d.y <= 0.0 ==> DirAsWritten(d) == Dir(d)
  {
  }

  /**
   * dirAsWritten: the C loop's direction code; stopOnDirs: the scan stops
   * once the direction has reversed more than twice (C), or goes on (Python).
   */
  datatype Rules = Rules(dirAsWritten: bool, stopOnDirs: bool)

  const CAsWritten := Rules(true, true)
  const CRules := Rules(false, true)
  const PyRules := Rules(false, false)

  /**
   * The loop variables: the previous edge and its direction code, the
   * reversal count, the number of non-zero edges seen, whether the turns
   * agree so far, the latest turn and the latest non-zero turn.
   */
  datatype Scan = Scan(last: Vec2, lastDir: int, dirChanges: nat, count: nat,
                       sameTurns: bool, side: real, lastSide: real)

  /** The state before the first edge, from the edge taken as previous. */
  function Start(last: Vec2): Scan { Scan(last, Dir(last), 0, 0, true, 0.0, 0.0) }

  /** A turn agrees with the latest non-zero one (any turn agrees with none). */
  predicate Agrees(side: real, lastSide: real) {
    (side > 0.0) == (lastSide > 0.0) || lastSide == 0.0
  }

  /** One edge: a zero edge is skipped, any other one is counted and turned onto. */
  function Step(s: Scan, d: Vec2, rules: Rules): Scan {
    if !NonZero(d) then s
    else
      var dir := if rules.dirAsWritten then DirAsWritten(d) else Dir(d);
      var side := Cross(s.last, d);
      Scan(d, dir, s.dirChanges + (if dir == -s.lastDir then 1 else 0), s.count + 1,
           if side != 0.0 then Agrees(side, s.lastSide) else s.sameTurns,
           side, if side != 0.0 then side else s.lastSide)
  }

  predicate Running(s: Scan, rules: Rules) {
    s.sameTurns && (!rules.stopOnDirs || s.dirChanges <= 2)
  }

  /** The scan over es, edge by edge, until it stops. */
  function Run(s: Scan, es: seq<Vec2>, rules: Rules): Scan
    decreases |es|
  {
    if |es| == 0 then s
    else
      var p := Run(s, es[..|es| - 1], rules);
      if Running(p, rules) then Step(p, es[|es| - 1], rules) else p
  }

  /** The verdict both sources draw after the loop. */
  predicate IsConvex(s: Scan) { s.sameTurns && s.dirChanges <= 2 }

  /** The C degenerate flag: no non-zero edge, or the latest turn is zero. */
  predicate CDegenerate(s: Scan) { s.count == 0 || s.side == 0.0 }

  /** The Python degenerate flag: no non-zero edge, or no turn had a sign. */
  predicate PyDegenerate(s: Scan) { s.count == 0 || s.lastSide == 0.0 }

  // ---------------------------------------------------------------
  // Where each version starts
  // ---------------------------------------------------------------

  /** The first index at or after k holding a non-zero vector, or |es|. */
  function FirstNonZero(es: seq<Vec2>, k: nat): (r: nat)
    requires k <= |es|
    ensures k <= r <= |es|
    ensures r < |es| ==> NonZero(es[r])
    ensures forall j :: k <= j < r ==> !NonZero(es[j])
    decreases |es| - k
  {
    if k == |es| || NonZero(es[k]) then k else FirstNonZero(es, k + 1)
  }

  /**
   * Poly_classify as written: the closing edge is the previous edge when
   * it is non-zero; otherwise the first non-zero edge is, and the scan
   * goes on from the edge after it, so the turn back onto that edge is
   * never looked at.
   */
  function CScanAsWritten(verts: seq<Vec2>): Scan
    requires |verts| >= 3
  {
    var es := EdgeVecs(verts);
    var n := |es|;
    if NonZero(es[n - 1]) then Run(Start(es[n - 1]), es, CAsWritten)
    else
      var k := FirstNonZero(es, 0);
      if k == n then Start(es[n - 1]) else Run(Start(es[k]), es[k + 1..], CAsWritten)
  }

  /** The non-zero vectors of es, in order. */
  function NonZeroEdges(es: seq<Vec2>): (r: seq<Vec2>)
    ensures |r| <= |es|
    ensures forall i :: 0 <= i < |r| ==> NonZero(r[i])
    decreases |es|
  {
    if |es| == 0 then []
    else NonZeroEdges(es[..|es| - 1]) + (if NonZero(es[|es| - 1]) then [es[|es| - 1]] else [])
  }

  /** The last non-zero vector of es, or the zero vector. */
  function LastNonZero(es: seq<Vec2>): Vec2
    decreases |es|
  {
    if |es| == 0 then Vec2(0.0, 0.0)
    else if NonZero(es[|es| - 1]) then es[|es| - 1]
    else LastNonZero(es[..|es| - 1])
  }

  /** The corrected C scan: from the last non-zero edge, over every edge, with the direction ternary. */
  function CScan(verts: seq<Vec2>): Scan {
    var es := EdgeVecs(verts);
    Run(Start(LastNonZero(es)), es, CRules)
  }

  /** The edges _classify walks: vertex i minus vertex i - 1, from i = 0. */
  function PyEdges(verts: seq<Vec2>): (r: seq<Vec2>)
    ensures |r| == |verts|
  {
    seq(|verts|, i requires 0 <= i < |verts| => Sub(verts[i], verts[Prev(i, |verts|)]))
  }

  /**
   * _classify as written: the previous edge is self[-1] - self[-2], the
   * last edge walked, even when it is zero; then the turn from the last
   * non-zero edge back onto the first is never looked at.
   */
  function PyScanAsWritten(verts: seq<Vec2>): Scan
    requires |verts| >= 2
  {
    Run(Start(Sub(verts[|verts| - 1], verts[|verts| - 2])), PyEdges(verts), PyRules)
  }

  /** The corrected Python scan: from the last non-zero edge walked. */
  function PyScan(verts: seq<Vec2>): Scan {
    var es := PyEdges(verts);
    Run(Start(LastNonZero(es)), es, PyRules)
  }

  // ---------------------------------------------------------------
  // What the scan decides: the cyclic turns of the non-zero edges
  // ---------------------------------------------------------------

  /** The turn onto non-zero edge j from the one before it, cyclically. */
  function Turn(nz: seq<Vec2>, j: nat): real
    requires j < |nz|
  {
    Cross(nz[Prev(j, |nz|)], nz[j])
  }

  /** Every two non-zero turns among the first k have the same sign. */
  ghost predicate AgreeUpTo(nz: seq<Vec2>, k: nat)
    requires k <= |nz|
  {
    forall i, j :: 0 <= i < k && 0 <= j < k && Turn(nz, i) != 0.0 && Turn(nz, j) != 0.0 ==>
      (Turn(nz, i) > 0.0 <==> Turn(nz, j) > 0.0)
  }

  /** Direction reversals among the first k edges, each against the edge before it cyclically. */
  function DirChanges(nz: seq<Vec2>, k: nat): nat
    requires k <= |nz|
  {
    if k == 0 then 0
    else DirChanges(nz, k - 1) + (if Dir(nz[k - 1]) == -Dir(nz[Prev(k - 1, |nz|)]) then 1 else 0)
  }

  /**
   * Convexity of a closed chain of non-zero edges: its turns all have one
   * sign (straight ones aside) and its x direction reverses at most twice.
   */
  ghost predicate ConvexChain(nz: seq<Vec2>) {
    AgreeUpTo(nz, |nz|) && DirChanges(nz, |nz|) <= 2
  }

  /** The latest non-zero turn among the first k, or zero. */
  function LastTurn(nz: seq<Vec2>, k: nat): (r: real)
    requires k <= |nz|
    ensures r == 0.0 <==> forall j :: 0 <= j < k ==> Turn(nz, j) == 0.0
    ensures r != 0.0 ==> exists j :: 0 <= j < k && Turn(nz, j) == r
  {
    if k == 0 then 0.0
    else if Turn(nz, k - 1) != 0.0 then Turn(nz, k - 1)
    else LastTurn(nz, k - 1)
  }

  /** Given agreement so far, one more turn keeps it iff it agrees with the latest non-zero turn. */
  lemma AgreeStep(nz: seq<Vec2>, k: nat)
    requires k < |nz| && AgreeUpTo(nz, k)
    ensures AgreeUpTo(nz, k + 1) <==> (Turn(nz, k) != 0.0 ==> Agrees(Turn(nz, k), LastTurn(nz, k)))
  {
    var t, l := Turn(nz, k), LastTurn(nz, k);
    if t != 0.0 && l != 0.0 {
      var j :| 0 <= j < k && Turn(nz, j) == l;
      if Agrees(t, l) {
        forall i | 0 <= i < k && Turn(nz, i) != 0.0
          ensures Turn(nz, i) > 0.0 <==> t > 0.0
        {
        }
      }
    }
  }

  /** Running(s) and what the loop variables hold, after the first k edges of a chain. */
  ghost predicate Tracks(s: Scan, nz: seq<Vec2>, k: nat, rules: Rules)
    requires 0 < |nz| && k <= |nz|
  {
    (Running(s, rules) <==> AgreeUpTo(nz, k) && (!rules.stopOnDirs || DirChanges(nz, k) <= 2)) &&
    (!rules.stopOnDirs && !Running(s, rules) ==> !s.sameTurns) &&
    (Running(s, rules) ==>
       s.last == nz[if k == 0 then |nz| - 1 else k - 1] && s.lastDir == Dir(s.last) &&
       s.dirChanges == DirChanges(nz, k) && s.count == k && s.lastSide == LastTurn(nz, k) &&
       s.side == (if k == 0 then 0.0 else Turn(nz, k - 1)))
  }

  /**
   * Started on the last edge of a chain of non-zero edges, the scan with
   * the direction ternary tracks the chain's turns and reversals edge by
   * edge.
   */
  lemma {:induction false} RunTracks(nz: seq<Vec2>, k: nat, rules: Rules)
    requires 0 < |nz| && k <= |nz| && !rules.dirAsWritten
    requires forall i :: 0 <= i < |nz| ==> NonZero(nz[i])
    ensures Tracks(Run(Start(nz[|nz| - 1]), nz[..k], rules), nz, k, rules)
  {
    var s0 := Start(nz[|nz| - 1]);
    if k > 0 {
      RunTracks(nz, k - 1, rules);
      assert nz[..k][..k - 1] == nz[..k - 1];
      var p := Run(s0, nz[..k - 1], rules);
      var s := Run(s0, nz[..k], rules);
      assert s == if Running(p, rules) then Step(p, nz[k - 1], rules) else p;
      if Running(p, rules) {
        AgreeStep(nz, k - 1);
        assert Prev(k - 1, |nz|) == if k - 1 == 0 then |nz| - 1 else k - 2;
      } else {
        assert !(AgreeUpTo(nz, k) && (!rules.stopOnDirs || DirChanges(nz, k) <= 2));
      }
    }
  }

  /** Running stops for good: nothing after the stop changes the state. */
  lemma {:induction false} RunSkipsZeros(s: Scan, es: seq<Vec2>, rules: Rules)
    ensures Run(s, es, rules) == Run(s, NonZeroEdges(es), rules)
    decreases |es|
  {
    if |es| > 0 {
      var a, d := es[..|es| - 1], es[|es| - 1];
      RunSkipsZeros(s, a, rules);
      var nza := NonZeroEdges(a);
      if NonZero(d) {
        assert NonZeroEdges(es) == nza + [d];
        assert (nza + [d])[..|nza|] == nza;
        assert Run(s, NonZeroEdges(es), rules) == Run(s, nza + [d], rules);
      } else {
        assert NonZeroEdges(es) == nza + [];
        assert nza + [] == nza;
      }
    }
  }

  /** The last non-zero vector is the last of the non-zero vectors. */
  lemma {:induction false} LastNonZeroIsLast(es: seq<Vec2>)
    ensures |NonZeroEdges(es)| > 0 ==> LastNonZero(es) == NonZeroEdges(es)[|NonZeroEdges(es)| - 1]
    ensures |NonZeroEdges(es)| == 0 ==> LastNonZero(es) == Vec2(0.0, 0.0)
    decreases |es|
  {
    if |es| > 0 {
      LastNonZeroIsLast(es[..|es| - 1]);
    }
  }

  /** Edges with no non-zero one: the scan is still at its start. */
  lemma {:induction false} RunOverZeros(s: Scan, es: seq<Vec2>, rules: Rules)
    requires |NonZeroEdges(es)| == 0
    ensures Run(s, es, rules) == s
  {
    RunSkipsZeros(s, es, rules);
  }

  /**
   * Started on the last non-zero edge, with the direction ternary, the
   * scan calls an edge list convex exactly when its chain of non-zero
   * edges is convex; then it has counted every non-zero edge and its
   * latest turn is the one onto the last of them.
   */
  lemma ScanDecidesConvexity(es: seq<Vec2>, rules: Rules)
    requires !rules.dirAsWritten
    ensures IsConvex(Run(Start(LastNonZero(es)), es, rules)) <==> ConvexChain(NonZeroEdges(es))
    ensures IsConvex(Run(Start(LastNonZero(es)), es, rules)) ==>
              Run(Start(LastNonZero(es)), es, rules).count == |NonZeroEdges(es)| &&
              Run(Start(LastNonZero(es)), es, rules).side ==
                (if |NonZeroEdges(es)| == 0 then 0.0 else Turn(NonZeroEdges(es), |NonZeroEdges(es)| - 1))
  {
    var nz := NonZeroEdges(es);
    LastNonZeroIsLast(es);
    var s0 := Start(LastNonZero(es));
    RunSkipsZeros(s0, es, rules);
    if |nz| == 0 {
      assert Run(s0, nz, rules) == s0;
    } else {
      RunTracks(nz, |nz|, rules);
      assert nz[..|nz|] == nz;
    }
  }

  // ---------------------------------------------------------------
  // The corrected scans, and the findings
  // ---------------------------------------------------------------

  /** The corrected C scan decides convexity of the polygon's non-zero edge chain. */
  lemma CScanConvex(verts: seq<Vec2>)
    ensures IsConvex(CScan(verts)) <==> ConvexChain(NonZeroEdges(EdgeVecs(verts)))
    ensures IsConvex(CScan(verts)) ==> CScan(verts).count == |NonZeroEdges(EdgeVecs(verts))|
  {
    ScanDecidesConvexity(EdgeVecs(verts), CRules);
  }

  /** The corrected Python scan decides convexity of the chain of edges _classify walks. */
  lemma PyScanConvex(verts: seq<Vec2>)
    ensures IsConvex(PyScan(verts)) <==> ConvexChain(NonZeroEdges(PyEdges(verts)))
    ensures IsConvex(PyScan(verts)) ==> PyScan(verts).count == |NonZeroEdges(PyEdges(verts))|
  {
    ScanDecidesConvexity(PyEdges(verts), PyRules);
  }

  /** Once the scan has stopped, later edges change nothing. */
  lemma {:induction false} RunStopped(s: Scan, es: seq<Vec2>, k: nat, m: nat, rules: Rules)
    requires k <= m <= |es| && !Running(Run(s, es[..k], rules), rules)
    ensures Run(s, es[..m], rules) == Run(s, es[..k], rules)
    decreases m - k
  {
    if k < m {
      RunStopped(s, es, k, m - 1, rules);
      RunPrefixStep(s, es, m - 1, rules);
    }
  }

  /** One more edge of a list: the scan steps from where the shorter list left it. */
  lemma RunPrefixStep(s: Scan, es: seq<Vec2>, k: nat, rules: Rules)
    requires k < |es|
    ensures Run(s, es[..k + 1], rules) ==
      (if Running(Run(s, es[..k], rules), rules) then Step(Run(s, es[..k], rules), es[k], rules)
       else Run(s, es[..k], rules))
  {
    assert es[..k + 1][..k] == es[..k];
  }

  /** The edge list shared by the two darts below. */
  const DartEdges: seq<Vec2> := [Vec2(2.0, -2.0), Vec2(-2.0, 4.0), Vec2(-2.0, -4.0), Vec2(2.0, 2.0), Vec2(0.0, 0.0)]

  const CDart: seq<Vec2> := [Vec2(0.0, 0.0), Vec2(2.0, -2.0), Vec2(0.0, 2.0), Vec2(-2.0, -2.0), Vec2(0.0, 0.0)]
  const PyDart: seq<Vec2> := [Vec2(2.0, -2.0), Vec2(0.0, 2.0), Vec2(-2.0, -2.0), Vec2(0.0, 0.0), Vec2(0.0, 0.0)]
  const Square: seq<Vec2> := [Vec2(1.0, 1.0), Vec2(0.0, 1.0), Vec2(0.0, 0.0), Vec2(1.0, 0.0)]
  const SquareEdges: seq<Vec2> := [Vec2(-1.0, 0.0), Vec2(0.0, -1.0), Vec2(1.0, 0.0), Vec2(0.0, 1.0)]

  /**
   * The dart (0,0), (2,-2), (0,2), (-2,-2) with its first vertex repeated
   * at the end: the turn onto the first edge is -8 while the others are
   * positive, yet Poly_classify as written calls it convex; the corrected
   * scan does not.
   */
  lemma CDartAsWritten()
    ensures IsConvex(CScanAsWritten(CDart)) && !IsConvex(CScan(CDart))
    ensures !ConvexChain(NonZeroEdges(EdgeVecs(CDart)))
  {
    var es := EdgeVecs(CDart);
    assert es == DartEdges;
    assert FirstNonZero(es, 0) == 0;
    DartAsWrittenRun(es[1..], Start(es[0]));
    DartCorrected(es, CRules);
    CScanConvex(CDart);
  }

  /** From the dart's first edge, the as-written C scan finds three positive turns. */
  lemma DartAsWrittenRun(tail: seq<Vec2>, s0: Scan)
    requires tail == DartEdges[1..] && s0 == Start(DartEdges[0])
    ensures IsConvex(Run(s0, tail, CAsWritten))
  {
    var s1 := Step(s0, tail[0], CAsWritten);
    assert s1 == Scan(tail[0], 1, 1, 1, true, 4.0, 4.0);
    var s2 := Step(s1, tail[1], CAsWritten);
    assert s2 == Scan(tail[1], 1, 1, 2, true, 16.0, 16.0);
    var s3 := Step(s2, tail[2], CAsWritten);
    assert s3 == Scan(tail[2], -1, 2, 3, true, 4.0, 4.0);
    RunPrefixStep(s0, tail, 0, CAsWritten);
    RunPrefixStep(s0, tail, 1, CAsWritten);
    RunPrefixStep(s0, tail, 2, CAsWritten);
    RunPrefixStep(s0, tail, 3, CAsWritten);
    assert tail[..4] == tail;
  }

  /** The corrected scan over the dart's edges stops on the second turn. */
  lemma DartCorrected(es: seq<Vec2>, rules: Rules)
    requires es == DartEdges && !rules.dirAsWritten
    ensures !IsConvex(Run(Start(LastNonZero(es)), es, rules))
  {
    assert es[..4][..3] == es[..3];
    assert LastNonZero(es) == es[3];
    var s0 := Start(es[3]);
    var s1 := Step(s0, es[0], rules);
    assert s1 == Scan(es[0], -1, 0, 1, true, -8.0, -8.0);
    var s2 := Step(s1, es[1], rules);
    assert !s2.sameTurns;
    RunPrefixStep(s0, es, 0, rules);
    RunPrefixStep(s0, es, 1, rules);
    RunPrefixStep(s0, es, 2, rules);
    RunPrefixStep(s0, es, 3, rules);
    RunPrefixStep(s0, es, 4, rules);
    assert es[..5] == es;
  }

  /**
   * The square (1,1), (0,1), (0,0), (1,0): with every vertical edge coded
   * 1, the as-written scan counts three reversals and calls the square not
   * convex; the direction ternary counts two.
   */
  lemma CSquareAsWritten()
    ensures !IsConvex(CScanAsWritten(Square)) && IsConvex(CScan(Square))
    ensures ConvexChain(NonZeroEdges(EdgeVecs(Square)))
  {
    var es := EdgeVecs(Square);
    assert es == SquareEdges;
    SquareRun(es, Start(es[3]), CAsWritten);
    assert LastNonZero(es) == es[3];
    SquareRun(es, Start(es[3]), CRules);
    CScanConvex(Square);
  }

  /** The square's scan from its last edge: three reversals as written, two with the ternary. */
  lemma SquareRun(es: seq<Vec2>, s0: Scan, rules: Rules)
    requires es == SquareEdges && s0 == Start(es[3]) && rules.stopOnDirs
    ensures IsConvex(Run(s0, es, rules)) <==> !rules.dirAsWritten
  {
    var s1 := Step(s0, es[0], rules);
    var s2 := Step(s1, es[1], rules);
    var s3 := Step(s2, es[2], rules);
    var s4 := Step(s3, es[3], rules);
    assert s1.sameTurns && s1.dirChanges == 1;
    assert s2.sameTurns && s2.dirChanges == 1;
    assert s3.sameTurns && s3.dirChanges == 2;
    assert s4.sameTurns && s4.dirChanges == if rules.dirAsWritten then 3 else 2;
    RunPrefixStep(s0, es, 0, rules);
    RunPrefixStep(s0, es, 1, rules);
    RunPrefixStep(s0, es, 2, rules);
    RunPrefixStep(s0, es, 3, rules);
    assert es[..4] == es;
  }

  /**
   * The Python dart (2,-2), (0,2), (-2,-2), (0,0), (0,0): the edge taken
   * as previous is zero, so _classify as written never turns from the last
   * edge onto the first and calls the dart convex; the corrected scan
   * does not.
   */
  lemma PyDartAsWritten()
    ensures IsConvex(PyScanAsWritten(PyDart)) && !IsConvex(PyScan(PyDart))
    ensures !ConvexChain(NonZeroEdges(PyEdges(PyDart)))
  {
    var es := PyEdges(PyDart);
    assert es == DartEdges;
    PyDartRun(es, Start(Vec2(0.0, 0.0)));
    DartCorrected(es, PyRules);
    PyScanConvex(PyDart);
  }

  /** From a zero previous edge, the Python scan finds no negative turn in the dart. */
  lemma PyDartRun(es: seq<Vec2>, s0: Scan)
    requires es == DartEdges && s0 == Start(Vec2(0.0, 0.0))
    ensures IsConvex(Run(s0, es, PyRules))
  {
    var s1 := Step(s0, es[0], PyRules);
    assert s1 == Scan(es[0], -1, 0, 1, true, 0.0, 0.0);
    var s2 := Step(s1, es[1], PyRules);
    assert s2 == Scan(es[1], 1, 1, 2, true, 4.0, 4.0);
    var s3 := Step(s2, es[2], PyRules);
    assert s3 == Scan(es[2], 1, 1, 3, true, 16.0, 16.0);
    var s4 := Step(s3, es[3], PyRules);
    assert s4 == Scan(es[3], -1, 2, 4, true, 4.0, 4.0);
    RunPrefixStep(s0, es, 0, PyRules);
    RunPrefixStep(s0, es, 1, PyRules);
    RunPrefixStep(s0, es, 2, PyRules);
    RunPrefixStep(s0, es, 3, PyRules);
    RunPrefixStep(s0, es, 4, PyRules);
    assert es[..5] == es;
  }
}

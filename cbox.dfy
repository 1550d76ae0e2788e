/**
 * The C BoundingBox of belgika/planar/cbox.c: an object whose min and max
 * corner fields the initialisers fill in a loop, and the builders that
 * allocate a new box from arithmetic on the corners.  Each is proved
 * against the reference functions of PyBox.
 */
module CBox {
  import opened Wrappers
  import opened Planar
  import opened PyBox

  /** DBL_MAX, exactly. */
  const DBL_MAX: real := 179769313486231570814527423731704356798070567525844996598917476803157260780028538760589558632766878171540458953514382464234321326889464182768467546703537516986049910576551282076245490090389328944075868508455133942304583236903222948165808559332123348274797826204144723168738177180919299881250404026184124858368.0

  /** Each bound of u pulled back inside [-DBL_MAX, DBL_MAX], as the C start values do. */
  function Clamped(u: BBox): BBox {
    BBox(Vec2(Min(DBL_MAX, u.min.x), Min(DBL_MAX, u.min.y)), Vec2(Max(-DBL_MAX, u.max.x), Max(-DBL_MAX, u.max.y)))
  }

  /** Every coordinate of every box lies within [-DBL_MAX, DBL_MAX]. */
  predicate InRange(s: seq<BBox>) {
    forall i :: 0 <= i < |s| ==>
      -DBL_MAX <= s[i].min.x <= DBL_MAX && -DBL_MAX <= s[i].min.y <= DBL_MAX &&
      -DBL_MAX <= s[i].max.x <= DBL_MAX && -DBL_MAX <= s[i].max.y <= DBL_MAX
  }

  /** The join of boxes in range stays in range. */
  lemma {:induction false} ShapesBoundInRange(s: seq<BBox>)
    requires |s| > 0 && InRange(s)
    ensures InRange([ShapesBound(s)])
    decreases |s|
  {
    if |s| > 1 {
      var t := s[..|s| - 1];
      assert forall i :: 0 <= i < |t| ==> t[i] == s[i];
      ShapesBoundInRange(t);
      assert ShapesBound(t) == [ShapesBound(t)][0];
    }
  }

  /** For real shape boxes the DBL_MAX start values change nothing. */
  lemma ClampedInRange(s: seq<BBox>)
    requires |s| > 0 && InRange(s)
    ensures Clamped(ShapesBound(s)) == ShapesBound(s)
  {
    ShapesBoundInRange(s);
    assert ShapesBound(s) == [ShapesBound(s)][0];
  }

  class BoxObject {
    var min: Vec2
    var max: Vec2

    /** The corners as a value. */
    function Value(): BBox
      reads this
    {
      BBox(min, max)
    }

    /** tp_alloc: a zero-filled object. */
    constructor ()
      ensures min == Vec2(0.0, 0.0) && max == Vec2(0.0, 0.0)
    {
      min, max := Vec2(0.0, 0.0), Vec2(0.0, 0.0);
    }

    /**
     * BBox_init_from_points: both corners at the first point, then for each
     * later point the max bound moved up or else the min bound moved down.
     * No point is the tooShort ValueError and leaves the fields as they were.
     */
    method InitFromPoints(points: seq<Vec2>) returns (err: Option<Error>)
      modifies this
      ensures |points| == 0 ==> err == Some(ValueError) && min == old(min) && max == old(max)
      ensures |points| > 0 ==> err == None && Value() == BoundsOf(points)
    {
      if |points| < 1 {
        return Some(ValueError);
      }
      max := points[0];
      min := points[0];
      var i := 1;
      while i < |points|
        invariant 1 <= i <= |points|
        invariant Value() == BoundsOf(points[..i])
        invariant min.x <= max.x && min.y <= max.y
      {
        var v := points[i];
        if v.x > max.x {
          max := max.(x := v.x);
        } else if v.x < min.x {
          min := min.(x := v.x);
        }
        if v.y > max.y {
          max := max.(y := v.y);
        } else if v.y < min.y {
          min := min.(y := v.y);
        }
        assert points[..i + 1][..i] == points[..i];
        i := i + 1;
      }
      assert points[..i] == points;
      err := None;
    }

    /**
     * BBox_new_from_shapes on a freshly allocated box: the corners start at
     * (DBL_MAX, DBL_MAX) and (-DBL_MAX, -DBL_MAX) and take in each shape
     * box; no shape is a ValueError.
     */
    method InitFromShapes(boxes: seq<BBox>) returns (err: Option<Error>)
      modifies this
      ensures |boxes| == 0 ==> err == Some(ValueError) && min == old(min) && max == old(max)
      ensures |boxes| > 0 ==> err == None && Value() == Clamped(ShapesBound(boxes))
    {
      if |boxes| < 1 {
        return Some(ValueError);
      }
      min := Vec2(DBL_MAX, DBL_MAX);
      max := Vec2(-DBL_MAX, -DBL_MAX);
      var i := 0;
      while i < |boxes|
        invariant 0 <= i <= |boxes|
        invariant i == 0 ==> min == Vec2(DBL_MAX, DBL_MAX) && max == Vec2(-DBL_MAX, -DBL_MAX)
        invariant i > 0 ==> Value() == Clamped(ShapesBound(boxes[..i]))
      {
        var b := boxes[i];
        if b.min.x < min.x { min := min.(x := b.min.x); }
        if b.min.y < min.y { min := min.(y := b.min.y); }
        if b.max.x > max.x { max := max.(x := b.max.x); }
        if b.max.y > max.y { max := max.(y := b.max.y); }
        assert boxes[..i + 1][..i] == boxes[..i];
        i := i + 1;
      }
      assert boxes[..i] == boxes;
      err := None;
    }
  }

  /**
   * BBox_new_from_center: half the absolute width and height either side
   * of the center.  It builds the same box as the Python from_center.
   */
  function FromCenter(c: Vec2, width: real, height: real): (r: BBox)
    ensures r == PyBox.FromCenter(c, width, height)
  {
    var hw, hh := Abs(width) * 0.5, Abs(height) * 0.5;
    BBox(Vec2(c.x - hw, c.y - hh), Vec2(c.x + hw, c.y + hh))
  }

  /**
   * BBox_inflate: each side moved out by half the amount, without
   * reordering the corners, so the sides change by exactly the amount.
   */
  function Inflate(b: BBox, ix: real, iy: real): (r: BBox)
    ensures Center(r) == Center(b)
    ensures Width(r) == Width(b) + ix && Height(r) == Height(b) + iy
  {
    var hx, hy := ix * 0.5, iy * 0.5;
    BBox(Vec2(b.min.x - hx, b.min.y - hy), Vec2(b.max.x + hx, b.max.y + hy))
  }

  /** While the inflated sides stay non-negative, C and Python inflate agree. */
  lemma InflateAgrees(b: BBox, ix: real, iy: real)
    requires Width(b) + ix >= 0.0 && Height(b) + iy >= 0.0
    ensures Inflate(b, ix, iy) == PyBox.Inflate(b, Vec2(ix, iy))
  {
    var p := PyBox.Inflate(b, Vec2(ix, iy));
    var c := Inflate(b, ix, iy);
    assert p.min.x + p.max.x == c.min.x + c.max.x && p.max.x - p.min.x == c.max.x - c.min.x;
    assert p.min.y + p.max.y == c.min.y + c.max.y && p.max.y - p.min.y == c.max.y - c.min.y;
  }

  /**
   * Shrinking past zero they part: the C box keeps its corners crossed,
   * the Python one is rebuilt normal.
   */
  lemma InflatePastZeroDiffers()
    ensures !IsNormal(Inflate(BBox(Vec2(0.0, 0.0), Vec2(1.0, 1.0)), -3.0, -3.0))
    ensures IsNormal(PyBox.Inflate(BBox(Vec2(0.0, 0.0), Vec2(1.0, 1.0)), Vec2(-3.0, -3.0)))
  {
  }
}

/**
 * The growable Vec2Array of belgika/planar/cvector.c: a buffer of vectors
 * with a used size and an allocated length, resized with CPython's list
 * over-allocation pattern and shifted with memmove.  The buffer is an
 * array whose length is the allocated size; Contents() is the used part.
 */
module CVector {
  import opened Wrappers
  import opened Planar

  const PY_SSIZE_T_MAX: nat := 0x7fff_ffff_ffff_ffff
  const PY_SIZE_MAX: nat := 0xffff_ffff_ffff_ffff

  /** Slot count the resize growth pattern asks for: 0, 4, 8, 16, 25, 35, 46, ... */
  function GrowTo(newsize: nat): nat {
    if newsize == 0 then 0 else newsize + newsize / 8 + (if newsize < 9 then 3 else 6)
  }

  /** Whether resize can keep the buffer it has. */
  predicate KeepsBuffer(slots: nat, newsize: nat) {
    slots >= newsize && newsize >= slots / 2
  }

  /** Every growth leaves room for the new size. */
  lemma GrowToFits(newsize: nat)
    ensures GrowTo(newsize) >= newsize
    ensures newsize > 0 ==> GrowTo(newsize) >= newsize + 3
  {
  }

  /**
   * A negative index counts from the end once; then the index is pulled
   * into [0, n].  This is the clamp of insert.
   */
  function InsertIndex(where: int, n: nat): (w: nat)
    ensures w <= n
    ensures 0 <= where <= n ==> w == where
    ensures where < 0 && where + n >= 0 ==> w == where + n
    ensures where + n < 0 ==> w == 0
    ensures where > n ==> w == n
  {
    var w0 := if where < 0 then (if where + n < 0 then 0 else where + n) else where;
    if w0 > n then n else w0
  }

  /** The clamp of slice and slice assignment: 0 <= lo <= hi <= n. */
  function ClampLow(ilow: int, n: nat): (lo: nat)
    ensures lo <= n && (0 <= ilow <= n ==> lo == ilow)
  {
    if ilow < 0 then 0 else if ilow > n then n else ilow
  }

  function ClampHigh(lo: nat, ihigh: int, n: nat): (hi: nat)
    requires lo <= n
    ensures lo <= hi <= n && (lo <= ihigh <= n ==> hi == ihigh)
  {
    if ihigh < lo then lo else if ihigh > n then n else ihigh
  }

  function MinNat(a: nat, b: nat): nat { if a <= b then a else b }

  /** Length squared of a vector, the key of longest and shortest. */
  function Length2(v: Vec2): real { v.x * v.x + v.y * v.y }

  lemma SquareNonNegative(a: real)
    ensures a * a >= 0.0
  {
    if a < 0.0 {
      assert a * a == (-a) * (-a);
    }
  }

  lemma Length2NonNegative(v: Vec2)
    ensures Length2(v) >= 0.0
  {
    SquareNonNegative(v.x);
    SquareNonNegative(v.y);
  }

  /** The head, the replacement and the tail in their slots make the assigned slice. */
  lemma Assembled(v: seq<Vec2>, before: seq<Vec2>, lo: nat, hi: nat, items: seq<Vec2>)
    requires lo <= hi <= |before| && lo + |items| + (|before| - hi) <= |v|
    requires v[..lo] == before[..lo] && v[lo..lo + |items|] == items
    requires v[lo + |items|..lo + |items| + (|before| - hi)] == before[hi..]
    ensures v[..lo + |items| + (|before| - hi)] == before[..lo] + items + before[hi..]
  {
    var n, m := lo + |items|, lo + |items| + (|before| - hi);
    assert v[..m] == v[..lo] + v[lo..n] + v[n..m];
  }

  class Vec2Array {
    /** The buffer; its length is the allocated slot count. */
    var vec: array<Vec2>
    var size: nat

    ghost predicate Valid()
      reads this
    {
      size <= vec.Length
    }

    /** The vectors in use, in order. */
    function Contents(): seq<Vec2>
      reads this, vec
      requires Valid()
    {
      vec[..size]
    }

    /** Seq2_New: exactly as many slots as vectors. */
    constructor (points: seq<Vec2>)
      ensures Valid() && Contents() == points && vec.Length == |points| && fresh(vec)
    {
      vec := new Vec2[|points|](i requires 0 <= i < |points| => points[i]);
      size := |points|;
      new;
      assert vec[..] == points;
    }

    /** Seq2_getitem: the vector at index, or IndexError outside [0, size). */
    method GetItem(index: int) returns (r: Result<Vec2>)
      requires Valid()
      ensures 0 <= index < size ==> r == Ok(Contents()[index])
      ensures !(0 <= index < size) ==> r == Err(IndexError)
    {
      if 0 <= index < size {
        r := Ok(vec[index]);
      } else {
        r := Err(IndexError);
      }
    }

    /**
     * Seq2_assitem and Vec2Array_ass_item: overwrite one vector in place;
     * outside [0, size) IndexError and nothing changes.
     */
    method SetItem(index: int, v: Vec2) returns (err: Option<Error>)
      requires Valid()
      modifies vec
      ensures Valid()
      ensures 0 <= index < size ==> err == None && Contents() == old(Contents())[index := v]
      ensures !(0 <= index < size) ==> err == Some(IndexError) && Contents() == old(Contents())
    {
      if 0 <= index < size {
        vec[index] := v;
        assert vec[..size] == old(vec[..size])[index := v];
        err := None;
      } else {
        err := Some(IndexError);
      }
    }

    /**
     * Vec2Array_ass_item with no vector (del a[i]): IndexError outside
     * [0, size), otherwise the slice [i, i + 1) assigned nothing.
     */
    method DeleteItem(index: int) returns (err: Option<Error>)
      requires Valid()
      modifies this, vec
      ensures !(0 <= index < old(size)) ==> err == Some(IndexError) && Valid() && Contents() == old(Contents())
      ensures err == None ==>
        Valid() && 0 <= index < old(size) && Contents() == old(Contents())[..index] + old(Contents())[index + 1..]
    {
      if index < 0 || index >= size {
        return Some(IndexError);
      }
      err := AssignSlice(index, index + 1, []);
    }

    /**
     * Vec2Array_resize: keep the buffer when it is between twice and once
     * the new size, otherwise reallocate to GrowTo(newsize) slots, keeping
     * the slots both buffers have; MemoryError if the slot count would
     * overflow.  Slots past the old contents are unspecified.
     */
    method Resize(newsize: nat) returns (err: Option<Error>)
      requires Valid()
      modifies this
      ensures err == None ==> Valid() && size == newsize
      ensures err == None && KeepsBuffer(old(vec.Length), newsize) ==> vec == old(vec)
      ensures err == None && !KeepsBuffer(old(vec.Length), newsize) ==> fresh(vec) && vec.Length == GrowTo(newsize)
      ensures err == None ==>
        forall i :: 0 <= i < old(vec.Length) && i < vec.Length ==> vec[i] == old(vec[i])
      ensures err == None && newsize <= old(size) ==> vec[..newsize] == old(vec[..newsize])
      ensures err != None ==> err == Some(MemoryError) && vec == old(vec) && size == old(size)
      ensures err != None ==> newsize / 8 + 6 > PY_SIZE_MAX - newsize
    {
      var slots := vec.Length;
      if KeepsBuffer(slots, newsize) {
        size := newsize;
        return None;
      }
      var newAllocated := newsize / 8 + (if newsize < 9 then 3 else 6);
      if newAllocated > PY_SIZE_MAX - newsize {
        return Some(MemoryError);
      }
      newAllocated := newAllocated + newsize;
      if newsize == 0 {
        newAllocated := 0;
      }
      var nv := new Vec2[newAllocated](_ => Vec2(0.0, 0.0));
      var keep := MinNat(slots, newAllocated);
      forall i | 0 <= i < keep {
        nv[i] := vec[i];
      }
      assert nv[..keep] == vec[..keep];
      vec := nv;
      size := newsize;
      err := None;
    }

    /**
     * append: one more vector at the end; OverflowError when the size is
     * already PY_SSIZE_T_MAX.
     */
    method Append(v: Vec2) returns (err: Option<Error>)
      requires Valid()
      modifies this, vec
      ensures err == None ==> Valid() && Contents() == old(Contents()) + [v]
      ensures old(size) == PY_SSIZE_T_MAX ==> err == Some(OverflowError)
      ensures err != None ==> Valid() && Contents() == old(Contents())
    {
      var i := size;
      if i == PY_SSIZE_T_MAX {
        return Some(OverflowError);
      }
      ghost var before := Contents();
      err := Resize(i + 1);
      if err != None {
        return;
      }
      assert vec[..i] == before;
      vec[i] := v;
      assert vec[..size] == vec[..i] + [v];
    }

    /**
     * insert: v goes in at InsertIndex(where, n) after the later vectors
     * are shifted up one slot, so the old vectors keep their order.
     */
    method Insert(where: int, v: Vec2) returns (err: Option<Error>)
      requires Valid()
      modifies this, vec
      ensures err == None ==>
        Valid() &&
        Contents() == old(Contents())[..InsertIndex(where, old(size))] + [v] + old(Contents())[InsertIndex(where, old(size))..]
      ensures old(size) == PY_SSIZE_T_MAX ==> err == Some(OverflowError)
      ensures err != None ==> Valid() && Contents() == old(Contents())
    {
      var n := size;
      if n == PY_SSIZE_T_MAX {
        return Some(OverflowError);
      }
      ghost var before := Contents();
      err := Resize(n + 1);
      if err != None {
        return;
      }
      assert vec[..n] == before;
      ShiftIn(InsertIndex(where, n), v, n, before);
    }

    /** The insert after the resize: the vectors from w on move up one slot and v goes in at w. */
    method ShiftIn(w: nat, v: Vec2, n: nat, ghost before: seq<Vec2>)
      requires w <= n == |before| && n + 1 <= vec.Length && vec[..n] == before
      modifies vec
      ensures vec[..n + 1] == before[..w] + [v] + before[w..]
    {
      forall k | w + 1 <= k < n + 1 {
        vec[k] := vec[k - 1];
      }
      vec[w] := v;
      forall k | 0 <= k < n + 1
        ensures vec[k] == (before[..w] + [v] + before[w..])[k]
      {
        if k > w {
          assert vec[k] == before[k - 1];
        }
      }
    }

    /**
     * slice: a new array holding the vectors in the clamped range
     * [lo, hi), so its length is hi - lo.
     */
    method Slice(ilow: int, ihigh: int) returns (r: Vec2Array)
      requires Valid()
      ensures fresh(r) && fresh(r.vec) && r.Valid()
      ensures var lo := ClampLow(ilow, size); var hi := ClampHigh(lo, ihigh, size);
        r.Contents() == Contents()[lo..hi] && |r.Contents()| == hi - lo
    {
      var lo := ClampLow(ilow, size);
      var hi := ClampHigh(lo, ihigh, size);
      r := new Vec2Array(vec[lo..hi]);
    }

    /**
     * ass_slice: the clamped range [lo, hi) replaced by items (delete when
     * items is empty).  The tail is moved down before a shrink and up
     * after a growth, counting only the vectors that were there; see
     * TailMoveEndAsWritten for the count the source passes to memmove.
     */
    method AssignSlice(ilow: int, ihigh: int, items: seq<Vec2>) returns (err: Option<Error>)
      requires Valid()
      modifies this, vec
      ensures err == None ==>
        Valid() &&
        var lo := ClampLow(ilow, old(size)); var hi := ClampHigh(lo, ihigh, old(size));
        Contents() == old(Contents())[..lo] + items + old(Contents())[hi..] &&
        size == old(size) - (hi - lo) + |items|
    {
      var lo := ClampLow(ilow, size);
      var hi := ClampHigh(lo, ihigh, size);
      if size - (hi - lo) + |items| == 0 {
        err := Resize(0);
      } else if |items| < hi - lo {
        err := Shrink(lo, hi, items);
      } else {
        err := Grow(lo, hi, items);
      }
    }

    /** ass_slice when the range is longer than its replacement: move the tail down, then shrink. */
    method Shrink(lo: nat, hi: nat, items: seq<Vec2>) returns (err: Option<Error>)
      requires Valid() && lo <= hi <= size && |items| < hi - lo
      modifies this, vec
      ensures err == None ==>
        Valid() && Contents() == old(Contents())[..lo] + items + old(Contents())[hi..]
    {
      var n := |items|;
      var oldSize := size;
      ghost var before := Contents();
      var d := n - (hi - lo);
      Move(hi, hi + d, oldSize - hi);
      assert vec[..lo] == before[..lo];
      assert vec[lo + n..oldSize + d] == before[hi..];
      ghost var kept := vec[..oldSize + d];
      err := Resize(size + d);
      if err != None {
        return;
      }
      FillGap(lo, hi, items, before, kept);
    }

    /**
     * The last step of ass_slice, once the head and the moved tail are in
     * place: the replacement is copied in between them.
     */
    method FillGap(lo: nat, hi: nat, items: seq<Vec2>, ghost before: seq<Vec2>, ghost kept: seq<Vec2>)
      requires lo <= hi <= |before|
      requires |kept| == |before| - (hi - lo) + |items| <= vec.Length && vec[..|kept|] == kept
      requires kept[..lo] == before[..lo] && kept[lo + |items|..] == before[hi..]
      modifies vec
      ensures vec[..|kept|] == before[..lo] + items + before[hi..]
    {
      CopyIn(lo, items);
      assert vec[..lo] == kept[..lo];
      assert vec[lo..lo + |items|] == items;
      assert vec[lo + |items|..|kept|] == kept[lo + |items|..];
      Assembled(vec[..], before, lo, hi, items);
    }

    /** ass_slice when the replacement is at least as long: grow, then move the tail up. */
    method Grow(lo: nat, hi: nat, items: seq<Vec2>) returns (err: Option<Error>)
      requires Valid() && lo <= hi <= size && |items| >= hi - lo
      modifies this, vec
      ensures err == None ==>
        Valid() && Contents() == old(Contents())[..lo] + items + old(Contents())[hi..]
    {
      var n := |items|;
      var oldSize := size;
      ghost var before := Contents();
      var d := n - (hi - lo);
      err := Resize(size + d);
      if err != None {
        return;
      }
      assert vec[..oldSize] == before;
      SpliceUp(lo, hi, items, oldSize, before);
    }

    /**
     * The growing case after the resize: the tail moves up d slots when
     * the replacement is longer, then the replacement is copied in.
     */
    method SpliceUp(lo: nat, hi: nat, items: seq<Vec2>, oldSize: nat, ghost before: seq<Vec2>)
      requires oldSize == |before| && lo <= hi <= oldSize && |items| >= hi - lo
      requires |before| + |items| - (hi - lo) <= vec.Length && vec[..|before|] == before
      modifies vec
      ensures vec[..|before| + |items| - (hi - lo)] == before[..lo] + items + before[hi..]
    {
      var n := |items|;
      var d := n - (hi - lo);
      if d > 0 {
        Move(hi, hi + d, oldSize - hi);
      }
      assert vec[..lo] == before[..lo];
      assert vec[lo + n..oldSize + d] == before[hi..];
      FillGap(lo, hi, items, before, vec[..oldSize + d]);
    }

    /** memmove of count vectors from slot from to slot to. */
    method Move(from: nat, to: nat, count: nat)
      requires from + count <= vec.Length && to + count <= vec.Length
      modifies vec
      ensures forall k :: 0 <= k < vec.Length ==>
        vec[k] == if to <= k < to + count then old(vec[k - to + from]) else old(vec[k])
    {
      forall k | to <= k < to + count {
        vec[k] := vec[k - to + from];
      }
    }

    /** The copy of the replacement vectors into slots at, at + 1, ... */
    method CopyIn(at: nat, items: seq<Vec2>)
      requires at + |items| <= vec.Length
      modifies vec
      ensures forall k :: 0 <= k < vec.Length ==>
        vec[k] == if at <= k < at + |items| then items[k - at] else old(vec[k])
    {
      forall k | at <= k < at + |items| {
        vec[k] := items[k - at];
      }
    }

    /**
     * longest: the first vector of greatest length squared, or None when
     * the array is empty (the running maximum starts at -1).
     */
    method Longest() returns (r: Option<Vec2>)
      requires Valid()
      ensures r == None <==> size == 0
      ensures r != None ==>
        exists i :: 0 <= i < size && Contents()[i] == r.value &&
          (forall j :: 0 <= j < size ==> Length2(Contents()[j]) <= Length2(Contents()[i])) &&
          (forall j :: 0 <= j < i ==> Length2(Contents()[j]) < Length2(Contents()[i]))
    {
      var maxLen := -1.0;
      var maxI := -1;
      var i := 0;
      while i < size
        invariant 0 <= i <= size && -1 <= maxI < i
        invariant maxI == -1 <==> i == 0
        invariant maxI == -1 ==> maxLen == -1.0
        invariant maxI >= 0 ==> maxLen == Length2(vec[maxI])
        invariant forall j :: 0 <= j < i ==> Length2(vec[j]) <= maxLen
        invariant maxI >= 0 ==> forall j :: 0 <= j < maxI ==> Length2(vec[j]) < maxLen
      {
        var l := Length2(vec[i]);
        Length2NonNegative(vec[i]);
        if l > maxLen {
          maxLen := l;
          maxI := i;
        }
        i := i + 1;
      }
      if maxI > -1 {
        r := Some(vec[maxI]);
        assert Contents()[maxI] == vec[maxI];
      } else {
        r := None;
      }
    }

    /**
     * shortest: the first vector of least length squared, or None; the
     * running minimum starts at DBL_MAX, so an array whose every vector
     * has length squared of DBL_MAX or more also gives None.
     */
    method Shortest() returns (r: Option<Vec2>)
      requires Valid()
      ensures r == None <==> forall j :: 0 <= j < size ==> Length2(Contents()[j]) >= DBL_MAX
      ensures r != None ==>
        exists i :: 0 <= i < size && Contents()[i] == r.value &&
          (forall j :: 0 <= j < size ==> Length2(Contents()[i]) <= Length2(Contents()[j])) &&
          (forall j :: 0 <= j < i ==> Length2(Contents()[i]) < Length2(Contents()[j]))
    {
      var minLen := DBL_MAX;
      var minI := -1;
      var i := 0;
      while i < size
        invariant 0 <= i <= size && -1 <= minI < i
        invariant minI == -1 ==> minLen == DBL_MAX
        invariant minI >= 0 ==> minLen == Length2(vec[minI]) && minLen < DBL_MAX
        invariant forall j :: 0 <= j < i ==> minLen <= Length2(vec[j])
        invariant minI >= 0 ==> forall j :: 0 <= j < minI ==> minLen < Length2(vec[j])
      {
        var l := Length2(vec[i]);
        if l < minLen {
          minLen := l;
          minI := i;
        }
        i := i + 1;
      }
      if minI > -1 {
        r := Some(vec[minI]);
        assert Contents()[minI] == vec[minI];
      } else {
        r := None;
      }
    }
  }

  /** DBL_MAX, exactly. */
  const DBL_MAX: real := 179769313486231570814527423731704356798070567525844996598917476803157260780028538760589558632766878171540458953514382464234321326889464182768467546703537516986049910576551282076245490090389328944075868508455133942304583236903222948165808559332123348274797826204144723168738177180919299881250404026184124858368.0

  /**
   * The slot just past the last one the growing memmove of ass_slice
   * writes, as the source counts it: the move starts at hi + d and takes
   * Py_SIZE(self) - hi vectors, read after the resize, when Py_SIZE(self)
   * is already the new size.
   */
  function TailMoveEndAsWritten(oldSize: nat, hi: nat, d: nat): int {
    var newSize := oldSize + d;
    hi + d + (newSize - hi)
  }

  /** The same end when the old tail length oldSize - hi is moved. */
  function TailMoveEnd(oldSize: nat, hi: nat, d: nat): int {
    hi + d + (oldSize - hi)
  }

  /**
   * With three vectors in four slots (one append to an empty array, then
   * two more), assigning one vector to the empty slice at 0 keeps the
   * buffer, yet the move as written reaches slot 4 of a four-slot buffer.
   */
  lemma AssignSliceAsWrittenOverruns()
    ensures GrowTo(1) == 4 && KeepsBuffer(4, 2) && KeepsBuffer(4, 3)
    ensures KeepsBuffer(4, 3 + 1)
    ensures TailMoveEndAsWritten(3, 0, 1) == 5 > 4
  {
  }

  /** The corrected move ends at the new size, which the resize guarantees fits. */
  lemma TailMoveFits(oldSize: nat, hi: nat, d: nat, slots: nat)
    requires hi <= oldSize && oldSize + d <= slots
    ensures TailMoveEnd(oldSize, hi, d) == oldSize + d <= slots
    ensures d > 0 ==> TailMoveEndAsWritten(oldSize, hi, d) == TailMoveEnd(oldSize, hi, d) + d
  {
  }
}

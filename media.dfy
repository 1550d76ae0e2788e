/**
 * Size-step selection of the media route (routes/media.js): an image is
 * stored at a fixed ladder of widths and a request for a width is served
 * from the largest stored width that does not exceed it.
 */
module Media {
  import opened Wrappers

  /** STEPS: the stored widths, ascending. */
  const Steps: seq<int> := [4, 8, 16, 32, 64, 128, 256, 512, 1024]

  /** STEPS_SZ */
  const StepsSize: int := |Steps|

  lemma StepsAscending()
    ensures forall i, j :: 0 <= i < j < |Steps| ==> Steps[i] < Steps[j]
  {
  }

  /**
   * getStep: scans the ladder from the top down and answers the first
   * index whose width the requested size reaches; a size below every width
   * (or a size that did not parse, None here, since every comparison with
   * NaN is false) falls back to the last index.
   */
  method GetStep(sz: Option<int>) returns (step: int)
    ensures 0 <= step < StepsSize
    ensures sz.Some? && sz.value >= Steps[0] ==>
      Steps[step] <= sz.value && forall j :: step < j < StepsSize ==> sz.value < Steps[j]
    ensures (sz.None? || sz.value < Steps[0]) ==> step == StepsSize - 1
  {
    var i := StepsSize - 1;
    while i >= 0
      invariant -1 <= i < StepsSize
      invariant sz.Some? ==> forall j :: i < j < StepsSize ==> sz.value < Steps[j]
    {
      if sz.Some? && sz.value >= Steps[i] {
        return i;
      }
      i := i - 1;
    }
    return StepsSize - 1;
  }

  /**
   * getMedia: the width of the file sent back for a requested width.
   * Paths and the file transfer are not modelled.
   */
  method GetMedia(size: Option<int>) returns (width: int)
    ensures width in Steps
    ensures size.Some? && size.value >= Steps[0] ==> width <= size.value
    ensures (size.None? || size.value < Steps[0]) ==> width == Steps[StepsSize - 1]
  {
    var step := GetStep(size);
    width := Steps[step];
  }

  /** A larger request is never served a lower step. */
  lemma GetStepMonotone(s1: int, s2: int, st1: int, st2: int)
    requires Steps[0] <= s1 <= s2
    requires 0 <= st1 < StepsSize && Steps[st1] <= s1 && forall j :: st1 < j < StepsSize ==> s1 < Steps[j]
    requires 0 <= st2 < StepsSize && Steps[st2] <= s2 && forall j :: st2 < j < StepsSize ==> s2 < Steps[j]
    ensures st1 <= st2
  {
  }
}

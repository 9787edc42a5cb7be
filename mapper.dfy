/** The coordinate mapper of `loop` in main.h: each of the four wall distances
    becomes the screen coordinate of a line, which moves toward the centre of
    the display as the wall comes closer. */
module Mapper {
  import Ratio

  /** The sensor's maximum range in centimetres. */
  const MaxRange: nat := 400
  /** Largest pixel row and column of the 128 x 32 display (indices start at 0). */
  const ScreenHeight: nat := 31
  const ScreenWidth: nat := 127

  /** `extent / 2` in the sketch is division of two `int`s, so half of the
      height is 15 and half of the width is 63. */
  function Half(extent: nat): (h: nat)
    ensures 2 * h <= extent < 2 * h + 2
  {
    extent / 2
  }

  /** How far a line moves out from its centre position for a reading of `cm`
      centimetres along the given screen extent: the exact value of
      `(int)(cm / maxRange * (extent / 2) + 0.5)`, where the cast truncates a
      positive number, that is, takes its floor. */
  function Offset(cm: nat, extent: nat): (o: nat)
    ensures o == ((cm as real) / (MaxRange as real) * (Half(extent) as real) + 0.5).Floor
  {
    var k := Half(extent);
    assert (cm as real) / (MaxRange as real) * (k as real) + 0.5
        == ((2 * k * cm + MaxRange) as real) / ((2 * MaxRange) as real);
    Ratio.FloorOfQuotient(2 * k * cm + MaxRange, 2 * MaxRange);
    (2 * k * cm + MaxRange) / (2 * MaxRange)
  }

  /** Row of the front wall's horizontal line: `16 - offset`. */
  function FrontY(cm: nat): (y: int) { 16 - Offset(cm, ScreenHeight) }
  /** Row of the back wall's horizontal line: `15 + offset`. */
  function BackY(cm: nat): (y: int) { 15 + Offset(cm, ScreenHeight) }
  /** Column of the right wall's vertical line: `64 + offset`. */
  function RightX(cm: nat): (x: int) { 64 + Offset(cm, ScreenWidth) }
  /** Column of the left wall's vertical line: `63 - offset`. */
  function LeftX(cm: nat): (x: int) { 63 - Offset(cm, ScreenWidth) }

  /** A farther wall never gives a smaller offset. */
  lemma OffsetMonotone(c1: nat, c2: nat, extent: nat)
    requires c1 <= c2
    ensures Offset(c1, extent) <= Offset(c2, extent)
  {
    Ratio.MulMonotone(2 * Half(extent), c1, c2);
  }

  /** Within the sensor's range the offset is at most half the extent, and it
      is 0 at 0 cm and exactly half the extent at the maximum range. */
  lemma OffsetInRange(cm: nat, extent: nat)
    requires cm <= MaxRange
    ensures Offset(cm, extent) <= Half(extent)
    ensures Offset(0, extent) == 0
    ensures Offset(MaxRange, extent) == Half(extent)
  {
    OffsetMonotone(cm, MaxRange, extent);
  }

  /** There is no clamping: one more maximum range of distance moves the line
      by exactly half the extent again, so readings beyond the range push the
      line further and further out. */
  lemma OffsetShift(cm: nat, extent: nat)
    ensures Offset(cm + MaxRange, extent) == Offset(cm, extent) + Half(extent)
  {
    var k := Half(extent);
    assert 2 * k * (cm + MaxRange) + MaxRange == (2 * k * cm + MaxRange) + k * (2 * MaxRange);
  }

  /** At 0 cm every line sits at its centre position. */
  lemma CoordinatesAtZero()
    ensures FrontY(0) == 16 && BackY(0) == 15
    ensures RightX(0) == 64 && LeftX(0) == 63
  {
  }

  /** At the maximum range the lines reach rows 1 and 30 and columns 127 and
      0: the front line stops one row short of the top, because half of 31 is
      15 and not 15.5. */
  lemma CoordinatesAtMaxRange()
    ensures FrontY(MaxRange) == 1 && BackY(MaxRange) == 30
    ensures RightX(MaxRange) == 127 && LeftX(MaxRange) == 0
  {
    OffsetInRange(MaxRange, ScreenHeight);
    OffsetInRange(MaxRange, ScreenWidth);
  }

  /** Every reading within the sensor's range gives a line on the screen, on
      its own side of the centre. */
  lemma CoordinatesOnScreen(cm: nat)
    requires cm <= MaxRange
    ensures 1 <= FrontY(cm) <= 16 && 15 <= BackY(cm) <= 30
    ensures 64 <= RightX(cm) <= 127 && 0 <= LeftX(cm) <= 63
  {
    OffsetInRange(cm, ScreenHeight);
    OffsetInRange(cm, ScreenWidth);
  }

  /** A closer wall moves its line toward the centre: front and left are
      non-increasing in the distance, back and right non-decreasing. */
  lemma CoordinatesMonotone(c1: nat, c2: nat)
    requires c1 <= c2
    ensures FrontY(c2) <= FrontY(c1) && BackY(c1) <= BackY(c2)
    ensures RightX(c1) <= RightX(c2) && LeftX(c2) <= LeftX(c1)
  {
    OffsetMonotone(c1, c2, ScreenHeight);
    OffsetMonotone(c1, c2, ScreenWidth);
  }

  /** The front and back lines mirror each other about the middle of the
      rows, and the right and left lines about the middle of the columns. */
  lemma CoordinatesMirror(cm: nat)
    ensures FrontY(cm) + BackY(cm) == ScreenHeight
    ensures RightX(cm) + LeftX(cm) == ScreenWidth
  {
  }

  /** Beyond the range nothing holds the lines back: every further 400 cm
      moves the front and back lines 15 rows and the side lines 63 columns,
      so 800 cm already puts all four off the screen. */
  lemma CoordinatesUnclamped(cm: nat)
    ensures FrontY(cm + MaxRange) == FrontY(cm) - 15
    ensures BackY(cm + MaxRange) == BackY(cm) + 15
    ensures RightX(cm + MaxRange) == RightX(cm) + 63
    ensures LeftX(cm + MaxRange) == LeftX(cm) - 63
    ensures FrontY(2 * MaxRange) < 0 && BackY(2 * MaxRange) > ScreenHeight
    ensures RightX(2 * MaxRange) > ScreenWidth && LeftX(2 * MaxRange) < 0
  {
    OffsetShift(cm, ScreenHeight);
    OffsetShift(cm, ScreenWidth);
    OffsetShift(MaxRange, ScreenHeight);
    OffsetShift(MaxRange, ScreenWidth);
    CoordinatesAtMaxRange();
  }
}

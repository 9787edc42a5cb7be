/** The frame renderer's geometry: `drawLines` in main.h draws two horizontal
    lines across the full width and two vertical lines down the full height,
    and `loop` adds the range label in the corner. Pixels, the cursor and the
    library's clipping are not modelled; a line is its two end points. */
module Renderer {
  import Mapper

  /** A straight line from (x0, y0) to (x1, y1), as passed to `drawLine`. */
  datatype Segment = Segment(x0: int, y0: int, x1: int, y1: int)

  function Min(a: int, b: int): (m: int) { if a <= b then a else b }
  function Max(a: int, b: int): (m: int) { if a <= b then b else a }

  /** Pixel (x, y) lies on a horizontal or vertical segment. */
  predicate OnSegment(s: Segment, x: int, y: int)
  {
    (s.y0 == s.y1 && y == s.y0 && Min(s.x0, s.x1) <= x <= Max(s.x0, s.x1)) ||
    (s.x0 == s.x1 && x == s.x0 && Min(s.y0, s.y1) <= y <= Max(s.y0, s.y1))
  }

  /** Pixel (x, y) lies on one of the segments. */
  predicate Lit(lines: seq<Segment>, x: int, y: int)
  {
    exists i :: 0 <= i < |lines| && OnSegment(lines[i], x, y)
  }

  /** The end coordinates the sketch passes to `drawLine`: one past the last
      column and row of the 128 x 32 display. */
  const LineEndX: int := 128
  const LineEndY: int := 32

  /** `drawLines(front, back, right, left)`: four lines, drawn in that order,
      which together light exactly the pixels of the rows `front` and `back`
      and of the columns `right` and `left`, wherever those are. */
  function DrawLines(front: int, back: int, right: int, left: int): (lines: seq<Segment>)
    ensures |lines| == 4
    ensures lines[0].y0 == lines[0].y1 == front && lines[1].y0 == lines[1].y1 == back
    ensures lines[2].x0 == lines[2].x1 == right && lines[3].x0 == lines[3].x1 == left
    ensures forall x, y :: 0 <= x <= LineEndX && 0 <= y <= LineEndY ==>
              (Lit(lines, x, y) <==> (y == front || y == back || x == right || x == left))
  {
    var lines := [Segment(0, front, LineEndX, front), Segment(0, back, LineEndX, back),
                  Segment(right, 0, right, LineEndY), Segment(left, 0, left, LineEndY)];
    forall x, y | 0 <= x <= LineEndX && 0 <= y <= LineEndY
      ensures Lit(lines, x, y) <==> (y == front || y == back || x == right || x == left)
    {
      if y == front { assert OnSegment(lines[0], x, y); }
      else if y == back { assert OnSegment(lines[1], x, y); }
      else if x == right { assert OnSegment(lines[2], x, y); }
      else if x == left { assert OnSegment(lines[3], x, y); }
    }
    lines
  }

  /** The lines of one pass of `loop`: each reading mapped to its coordinate
      and the four coordinates handed to `drawLines`. */
  function WallLines(cmFront: nat, cmBack: nat, cmRight: nat, cmLeft: nat): (lines: seq<Segment>)
  {
    DrawLines(Mapper.FrontY(cmFront), Mapper.BackY(cmBack),
              Mapper.RightX(cmRight), Mapper.LeftX(cmLeft))
  }

  /** For readings within the sensor's range, each wall shows as a full row or
      column of the display's 128 x 32 pixels. */
  lemma WallLinesVisible(cmFront: nat, cmBack: nat, cmRight: nat, cmLeft: nat)
    requires cmFront <= Mapper.MaxRange && cmBack <= Mapper.MaxRange
    requires cmRight <= Mapper.MaxRange && cmLeft <= Mapper.MaxRange
    ensures var w := WallLines(cmFront, cmBack, cmRight, cmLeft);
      var f, b := Mapper.FrontY(cmFront), Mapper.BackY(cmBack);
      var r, l := Mapper.RightX(cmRight), Mapper.LeftX(cmLeft);
      0 <= f <= Mapper.ScreenHeight && 0 <= b <= Mapper.ScreenHeight &&
      0 <= r <= Mapper.ScreenWidth && 0 <= l <= Mapper.ScreenWidth &&
      (forall x :: 0 <= x <= Mapper.ScreenWidth ==> Lit(w, x, f) && Lit(w, x, b)) &&
      (forall y :: 0 <= y <= Mapper.ScreenHeight ==> Lit(w, r, y) && Lit(w, l, y))
  {
    Mapper.CoordinatesOnScreen(cmFront);
    Mapper.CoordinatesOnScreen(cmBack);
    Mapper.CoordinatesOnScreen(cmRight);
    Mapper.CoordinatesOnScreen(cmLeft);
  }

  /** `maxRangeM = maxRange / 100`: the range in whole metres, 4. */
  function RangeMetres(): (m: nat)
    ensures m * 100 <= Mapper.MaxRange < (m + 1) * 100
    ensures m == 4
  {
    Mapper.MaxRange / 100
  }

  /** The corner label `(String)maxRangeM + "M"`. */
  function RangeLabel(): (s: string)
    ensures s == "4M"
  {
    [('0' as int + RangeMetres()) as char, 'M']
  }
}

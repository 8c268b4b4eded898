/**
 * Diff-space geometry of the motion detector: turning a flat pixel index into
 * (x, y), growing the motion box and recording motion pixels.
 */
module Geometry {
  import opened Wrappers
  import Pixels

  /** A diff-space coordinate: origin top-left, x to the right, y downwards. */
  datatype Coord = Coord(x: int, y: int)

  /** `calculateCoordinates`: the column and row of a flat pixel index in a frame `width` pixels wide. */
  function CalculateCoordinates(pixelIndex: nat, width: int): (c: Coord)
    requires width > 0
    ensures 0 <= c.x < width && 0 <= c.y
    ensures c.y * width + c.x == pixelIndex
  {
    Coord(pixelIndex % width, pixelIndex / width)
  }

  /** The flat index of a coordinate, row by row. */
  function PixelIndex(c: Coord, width: int): int
  {
    c.y * width + c.x
  }

  /** A coordinate inside the row width is recovered from its flat index. */
  lemma CoordinatesRoundTrip(c: Coord, width: int)
    requires 0 <= c.x < width && 0 <= c.y
    ensures PixelIndex(c, width) >= 0
    ensures CalculateCoordinates(PixelIndex(c, width), width) == c
  {
    var p := PixelIndex(c, width);
    var d := CalculateCoordinates(p, width);
    if d.y < c.y {
      Pixels.MulMonotone(d.y + 1, c.y, width);
    } else if d.y > c.y {
      Pixels.MulMonotone(c.y + 1, d.y, width);
    }
  }

  /** The flat index of a coordinate inside a width x height frame, inverse of CalculateCoordinates. */
  function FlatIndex(c: Coord, width: int, height: int): (p: nat)
    requires 0 <= c.x < width && 0 <= c.y < height
    ensures p < width * height
    ensures CalculateCoordinates(p, width) == c
  {
    CoordinatesRoundTrip(c, width);
    Pixels.MulMonotone(c.y + 1, height, width);
    PixelIndex(c, width)
  }

  /** An index inside a width x height frame lands on a row of that frame. */
  lemma CoordinatesInFrame(pixelIndex: nat, width: int, height: int)
    requires width > 0 && pixelIndex < width * height
    ensures CalculateCoordinates(pixelIndex, width).y < height
  {
    var c := CalculateCoordinates(pixelIndex, width);
    if c.y >= height {
      Pixels.MulMonotone(height, c.y, width);
    }
  }

  /** The motion box `{x: {min, max}, y: {min, max}}`. */
  datatype Box = Box(xMin: int, xMax: int, yMin: int, yMax: int)

  predicate WellFormed(b: Box)
  {
    b.xMin <= b.xMax && b.yMin <= b.yMax
  }

  predicate Contains(b: Box, c: Coord)
  {
    b.xMin <= c.x <= b.xMax && b.yMin <= c.y <= b.yMax
  }

  predicate Encloses(outer: Box, inner: Box)
  {
    outer.xMin <= inner.xMin && inner.xMax <= outer.xMax &&
    outer.yMin <= inner.yMin && inner.yMax <= outer.yMax
  }

  /**
   * `calculateMotionBox`: the box, created on demand as the single point, grown
   * to take in (x, y). The result is the smallest box holding the old box and
   * the point: each of its edges is an edge of the old box or runs through the point.
   */
  function CalculateMotionBox(current: Option<Box>, x: int, y: int): (r: Box)
    ensures Contains(r, Coord(x, y))
    ensures current.None? ==> r == Box(x, x, y, y)
    ensures current.Some? ==> Encloses(r, current.value)
    ensures current.Some? && WellFormed(current.value) ==> WellFormed(r)
    ensures current.None? ==> WellFormed(r)
    ensures current.Some? && Contains(current.value, Coord(x, y)) ==> r == current.value
    ensures r.xMin == x || (current.Some? && r.xMin == current.value.xMin)
    ensures r.xMax == x || (current.Some? && r.xMax == current.value.xMax)
    ensures r.yMin == y || (current.Some? && r.yMin == current.value.yMin)
    ensures r.yMax == y || (current.Some? && r.yMax == current.value.yMax)
  {
    var b := if current.Some? then current.value else Box(x, x, y, y);
    Box(Min(b.xMin, x), Max(b.xMax, x), Min(b.yMin, y), Max(b.yMax, y))
  }

  function Min(a: int, b: int): int { if a <= b then a else b }

  function Max(a: int, b: int): int { if a >= b then a else b }

  /**
   * The sparse `motionPixels[x][y]` table: column x maps to the rows y whose
   * entry has been set to `true`.
   */
  type Mask = map<int, set<int>>

  predicate Flagged(m: Mask, x: int, y: int)
  {
    x in m && y in m[x]
  }

  /** `calculateMotionPixels`: set `motionPixels[x][y]`, creating column x on demand. */
  function CalculateMotionPixels(m: Mask, x: int, y: int): (r: Mask)
    ensures forall a, b :: Flagged(r, a, b) <==> Flagged(m, a, b) || (a == x && b == y)
  {
    var column := if x in m then m[x] else {};
    m[x := column + {y}]
  }

  /** `checkMotionPixel`: the table exists and has its (x, y) entry set. */
  predicate CheckMotionPixel(motionPixels: Option<Mask>, x: int, y: int)
  {
    motionPixels.Some? && Flagged(motionPixels.value, x, y)
  }
}

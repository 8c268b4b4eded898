/**
 * `setCaptureParameters` divides the capture size by `SCALE` in floating
 * point, so a capture width that is not a multiple of 10 yields a fractional
 * `diffWidth`. The diff canvas and the image data read from it hold whole
 * pixels (the width truncated), but `calculateCoordinates` keeps dividing the
 * pixel index by the fractional width, so the first pixel of the second row
 * is placed in the first row, one column beyond the right edge of the frame.
 *
 * The rest of the model uses the truncated width, `DiffDimension`.
 */
module Findings {
  import opened Geometry
  import opened MotionDetection

  /** `this.captureWidth / this.getScale()` as written, in floating point (taken exactly). */
  function DiffWidthAsWritten(captureWidth: int): real
  {
    captureWidth as real / Scale as real
  }

  /**
   * `calculateCoordinates` with a fractional width, as written:
   * `pixelIndex % width` and `Math.floor(pixelIndex / width)`.
   */
  function CoordinatesAsWritten(pixelIndex: nat, width: real): (real, int)
    requires width > 0.0
  {
    var y := (pixelIndex as real / width).Floor;
    (pixelIndex as real - y as real * width, y)
  }

  /**
   * For every capture width that is not a multiple of 10, the pixel just after
   * the first row of the truncated frame gets an x equal to the frame's width,
   * outside it, while the truncated width places it at the start of row 1.
   */
  lemma FractionalWidthLeavesFrame(captureWidth: int)
    requires captureWidth >= Scale && captureWidth % Scale != 0
    ensures var frameWidth := DiffDimension(captureWidth);
            var written := DiffWidthAsWritten(captureWidth);
            frameWidth as real < written &&
            CoordinatesAsWritten(frameWidth, written) == (frameWidth as real, 0) &&
            CalculateCoordinates(frameWidth, frameWidth) == Coord(0, 1)
  {
    var d := DiffDimension(captureWidth);
    var w := DiffWidthAsWritten(captureWidth);
    assert d * Scale < captureWidth;
    assert (d * Scale) as real < captureWidth as real;
    assert d as real < w;
    assert 0.0 <= d as real / w < 1.0;
  }

  /** The concrete case of a 735 pixel wide video container. */
  lemma ContainerWidth735()
    ensures DiffWidthAsWritten(735) == 73.5 && DiffDimension(735) == 73
    ensures CoordinatesAsWritten(73, 73.5) == (73.0, 0)
    ensures CalculateCoordinates(73, 73) == Coord(0, 1)
  {
    FractionalWidthLeavesFrame(735);
  }
}

/**
 * The `MotionDetectorService`: its configuration, the ready-to-diff lifecycle
 * and the in-place pass over the difference image.
 *
 * The webcam, the canvases and the event subjects stay outside: the
 * differenced buffer that the diff canvas produces is a parameter of Capture,
 * the DOM sizes read when setting the capture parameters are a Probe, and the
 * capture callback event is Capture's result.
 */
module MotionDetection {
  import opened Wrappers
  import opened Pixels
  import opened Geometry
  import opened DiffSpec

  /** `SCALE`, the downscaling factor returned by `getScale`. */
  const Scale: int := 10

  const DefaultCaptureIntervalTime: int := 100
  const DefaultCaptureWidth: int := 640
  const DefaultCaptureHeight: int := 480
  const DefaultDiffWidth: int := 64
  const DefaultDiffHeight: int := 48
  const DefaultPixelDiffThreshold: int := 32
  const DefaultScoreThreshold: int := 16

  /** The options object given to `init`; None is an option left undefined. */
  datatype Options = Options(
    captureIntervalTime: Option<int>,
    captureWidth: Option<int>,
    captureHeight: Option<int>,
    diffWidth: Option<int>,
    diffHeight: Option<int>,
    pixelDiffThreshold: Option<int>,
    scoreThreshold: Option<int>,
    includeMotionBox: Option<bool>,
    includeMotionPixels: Option<bool>)

  /**
   * The DOM sizes read by `setCaptureParameters`: the video container's
   * offset size (0 when there is no container) and the video's intrinsic size.
   */
  datatype Probe = Probe(containerWidth: int, containerHeight: int, videoWidth: int, videoHeight: int)

  /** Outcome of `init`: it throws "No options object provided" without options. */
  datatype InitStatus = Initialized | NoOptionsError

  /** JavaScript's `value || fallback` for a numeric option: undefined and 0 are falsy. */
  function OrDefault(value: Option<int>, fallback: int): int
  {
    if value.Some? && value.value != 0 then value.value else fallback
  }

  /** JavaScript's `value || false` for a boolean option. */
  function OrFalse(value: Option<bool>): bool
  {
    value.Some? && value.value
  }

  /**
   * One capture dimension after `setCaptureParameters`: a container with a
   * positive offset size wins, then a positive video size, else it stays.
   */
  function ProbedDimension(containerSize: int, videoSize: int, current: int): int
  {
    if containerSize > 0 then containerSize
    else if videoSize > 0 then videoSize
    else current
  }

  /**
   * A diff dimension: the capture dimension divided by the scale, truncated to
   * whole pixels as the diff canvas truncates it.
   */
  function DiffDimension(captureSize: int): (d: int)
    requires captureSize >= Scale
    ensures d >= 1
    ensures d * Scale <= captureSize < (d + 1) * Scale
  {
    captureSize / Scale
  }

  class MotionDetectorService {
    var captureIntervalTime: int
    var captureWidth: int
    var captureHeight: int
    var diffWidth: int
    var diffHeight: int
    var isReadyToDiff: bool
    var pixelDiffThreshold: int
    var scoreThreshold: int
    var includeMotionBox: bool
    var includeMotionPixels: bool

    /** The capture and diff sizes agree, as `setCaptureParameters` leaves them. */
    ghost predicate Valid()
      reads this
    {
      captureWidth >= Scale && captureHeight >= Scale &&
      diffWidth == DiffDimension(captureWidth) && diffHeight == DiffDimension(captureHeight)
    }

    /** Every field starts undefined, which reads as 0 and false. */
    constructor ()
      ensures !Valid() && !isReadyToDiff
    {
      captureIntervalTime, captureWidth, captureHeight := 0, 0, 0;
      diffWidth, diffHeight := 0, 0;
      isReadyToDiff := false;
      pixelDiffThreshold, scoreThreshold := 0, 0;
      includeMotionBox, includeMotionPixels := false, false;
    }

    /** `init`: read the options with their defaults, clear the ready flag, set the capture parameters. */
    method Init(options: Option<Options>, probe: Probe) returns (status: InitStatus)
      requires options.Some? ==>
                 ProbedDimension(probe.containerWidth, probe.videoWidth,
                                 OrDefault(options.value.captureWidth, DefaultCaptureWidth)) >= Scale &&
                 ProbedDimension(probe.containerHeight, probe.videoHeight,
                                 OrDefault(options.value.captureHeight, DefaultCaptureHeight)) >= Scale
      modifies this
      ensures options.None? ==> status == NoOptionsError && unchanged(this)
      ensures options.Some? ==>
                var o := options.value;
                status == Initialized && Valid() && !isReadyToDiff &&
                captureIntervalTime == OrDefault(o.captureIntervalTime, DefaultCaptureIntervalTime) &&
                captureWidth == ProbedDimension(probe.containerWidth, probe.videoWidth,
                                                OrDefault(o.captureWidth, DefaultCaptureWidth)) &&
                captureHeight == ProbedDimension(probe.containerHeight, probe.videoHeight,
                                                 OrDefault(o.captureHeight, DefaultCaptureHeight)) &&
                diffWidth == DiffDimension(captureWidth) && diffHeight == DiffDimension(captureHeight) &&
                pixelDiffThreshold == OrDefault(o.pixelDiffThreshold, DefaultPixelDiffThreshold) &&
                scoreThreshold == OrDefault(o.scoreThreshold, DefaultScoreThreshold) &&
                includeMotionBox == OrFalse(o.includeMotionBox) &&
                includeMotionPixels == OrFalse(o.includeMotionPixels)
    {
      if options.None? {
        return NoOptionsError;
      }
      var o := options.value;
      captureIntervalTime := OrDefault(o.captureIntervalTime, DefaultCaptureIntervalTime);
      captureWidth := OrDefault(o.captureWidth, DefaultCaptureWidth);
      captureHeight := OrDefault(o.captureHeight, DefaultCaptureHeight);
      diffWidth := OrDefault(o.diffWidth, DefaultDiffWidth);
      diffHeight := OrDefault(o.diffHeight, DefaultDiffHeight);
      pixelDiffThreshold := OrDefault(o.pixelDiffThreshold, DefaultPixelDiffThreshold);
      scoreThreshold := OrDefault(o.scoreThreshold, DefaultScoreThreshold);
      includeMotionBox := OrFalse(o.includeMotionBox);
      includeMotionPixels := OrFalse(o.includeMotionPixels);
      isReadyToDiff := false;
      SetCaptureParameters(probe);
      status := Initialized;
    }

    /**
     * `setCaptureParameters`: take the capture size from the DOM where it has
     * one, and derive the diff size from it.
     */
    method SetCaptureParameters(probe: Probe)
      requires ProbedDimension(probe.containerWidth, probe.videoWidth, captureWidth) >= Scale
      requires ProbedDimension(probe.containerHeight, probe.videoHeight, captureHeight) >= Scale
      modifies this`captureWidth, this`captureHeight, this`diffWidth, this`diffHeight
      ensures captureWidth == ProbedDimension(probe.containerWidth, probe.videoWidth, old(captureWidth))
      ensures captureHeight == ProbedDimension(probe.containerHeight, probe.videoHeight, old(captureHeight))
      ensures diffWidth == DiffDimension(captureWidth) && diffHeight == DiffDimension(captureHeight)
      ensures Valid()
    {
      captureWidth := ProbedDimension(probe.containerWidth, probe.videoWidth, captureWidth);
      captureHeight := ProbedDimension(probe.containerHeight, probe.videoHeight, captureHeight);
      diffWidth := DiffDimension(captureWidth);
      diffHeight := DiffDimension(captureHeight);
    }

    /** `stop`: the next capture only lays down a new baseline. */
    method Stop()
      modifies this`isReadyToDiff
      ensures !isReadyToDiff
      ensures Valid() == old(Valid())
    {
      isReadyToDiff := false;
    }

    /**
     * `capture`, given the diff canvas's difference image: only when a previous
     * capture exists is the image rewritten and an event produced; either way
     * the service is ready to diff afterwards.
     */
    method Capture(rgba: array<Byte>) returns (event: Option<CaptureEvent>)
      requires Valid() && rgba.Length == 4 * (diffWidth * diffHeight)
      modifies this`isReadyToDiff, rgba
      ensures isReadyToDiff && Valid()
      ensures old(isReadyToDiff) ==>
                rgba[..] == Rewritten(old(rgba[..]), pixelDiffThreshold) &&
                event == Some(Report(old(rgba[..]), diffWidth, pixelDiffThreshold, scoreThreshold,
                                     includeMotionBox, includeMotionPixels))
      ensures !old(isReadyToDiff) ==> rgba[..] == old(rgba[..]) && event == None
    {
      event := None;
      if isReadyToDiff {
        var diff := ProcessDiff(rgba);
        event := Some(CaptureEvent(diff.score, diff.score >= scoreThreshold, diff.motionBox, diff.motionPixels));
      }
      isReadyToDiff := true;
    }

    /**
     * `processDiff`: one pass over the difference image, rewriting every pixel
     * in place as green intensity while counting qualifying pixels, growing
     * the box and filling the motion pixel table.
     */
    method ProcessDiff(rgba: array<Byte>) returns (diff: Diff)
      requires diffWidth > 0 && rgba.Length % 4 == 0
      modifies rgba
      ensures rgba[..] == Rewritten(old(rgba[..]), pixelDiffThreshold)
      ensures diff == DiffOf(old(rgba[..]), diffWidth, pixelDiffThreshold, scoreThreshold,
                             includeMotionBox, includeMotionPixels)
    {
      ghost var s := rgba[..];
      var score := 0;
      var motionPixels: Option<Mask> := if includeMotionPixels then Some(map[]) else None;
      var motionBox: Option<Box> := None;
      var i := 0;
      ghost var p: nat := 0;
      while i < rgba.Length
        invariant 0 <= i <= rgba.Length && i == 4 * p
        invariant forall q: nat :: q < p ==> PixelRewritten(rgba[..], s, q, pixelDiffThreshold)
        invariant forall j :: i <= j < rgba.Length ==> rgba[j] == s[j]
        invariant score == ScoreOf(s, p, pixelDiffThreshold)
        invariant motionBox == if includeMotionBox then BoxOf(s, p, diffWidth, pixelDiffThreshold) else None
        invariant motionPixels == if includeMotionPixels then Some(MaskOf(s, p, diffWidth, pixelDiffThreshold)) else None
      {
        // ten times 0.3 R + 0.6 G + 0.1 B
        var pixelDiff := 3 * (rgba[i] as int) + 6 * (rgba[i + 1] as int) + (rgba[i + 2] as int);
        var normalized: Byte := Green(pixelDiff, pixelDiffThreshold);
        assert pixelDiff == TenfoldDiff(s, p);
        AccumulateStep(s, p, diffWidth, pixelDiffThreshold);
        ghost var before := rgba[..];
        rgba[i] := 0;
        rgba[i + 1] := normalized;
        rgba[i + 2] := 0;
        RewritePixelStep(before, rgba[..], s, pixelDiffThreshold, p);
        if pixelDiff >= 10 * pixelDiffThreshold {
          score := score + 1;
          var coords := CalculateCoordinates(i / 4, diffWidth);
          assert i / 4 == p;
          if includeMotionBox {
            motionBox := Some(CalculateMotionBox(motionBox, coords.x, coords.y));
          }
          if includeMotionPixels {
            motionPixels := Some(CalculateMotionPixels(motionPixels.value, coords.x, coords.y));
          }
        }
        i, p := i + 4, p + 1;
      }
      RewrittenFromPixels(rgba[..], s, pixelDiffThreshold);
      assert p == PixelCount(s);
      diff := Diff(score, if score > scoreThreshold then motionBox else None, motionPixels);
    }

    function GetPixelDiffThreshold(): int
      reads this
    {
      pixelDiffThreshold
    }

    method SetPixelDiffThreshold(value: int)
      modifies this`pixelDiffThreshold
      ensures GetPixelDiffThreshold() == value
      ensures Valid() == old(Valid())
    {
      pixelDiffThreshold := value;
    }

    function GetScoreThreshold(): int
      reads this
    {
      scoreThreshold
    }

    method SetScoreThreshold(value: int)
      modifies this`scoreThreshold
      ensures GetScoreThreshold() == value
      ensures Valid() == old(Valid())
    {
      scoreThreshold := value;
    }
  }

  /**
   * After `stop` the first capture only lays down a baseline and reports
   * nothing; the capture after it reports.
   */
  method FirstCaptureAfterStopIsBaseline(detector: MotionDetectorService, first: array<Byte>, second: array<Byte>)
    returns (firstEvent: Option<CaptureEvent>, secondEvent: Option<CaptureEvent>)
    requires detector.Valid()
    requires first.Length == 4 * (detector.diffWidth * detector.diffHeight)
    requires second.Length == first.Length && first != second
    modifies detector, first, second
    ensures firstEvent.None? && secondEvent.Some?
    ensures first[..] == old(first[..])
  {
    detector.Stop();
    firstEvent := detector.Capture(first);
    secondEvent := detector.Capture(second);
  }
}

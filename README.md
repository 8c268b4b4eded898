# Motion detector frame-differencing engine, in Dafny

This project models the core of `MotionDetectorService` from an Angular
webcam motion detector (src/app/core/vision/motion-detector.service.ts) and
proves properties of that model.

Each capture tick, the service draws the current video frame over the
previous one with the canvas `"difference"` composite. This gives a small
RGBA difference image, `captureWidth / 10` by `captureHeight / 10` pixels,
each quotient truncated to whole pixels as the canvas truncates it.
`processDiff` then makes one pass over that byte buffer:

- it weighs each pixel's channels as `0.3 R + 0.6 G + 0.1 B`;
- it rewrites the pixel in place as green intensity relative to `pixelDiffThreshold`;
- it counts the pixels at or above that threshold (the score);
- it grows a bounding box over their (x, y) coordinates;
- it records them in a sparse `motionPixels[x][y]` table.

The capture event reports `hasMotion = score >= scoreThreshold`. The box only
comes back when `score > scoreThreshold`, so a score exactly at the threshold
reports motion without a box. The first capture after `init` or `stop` only
lays down a baseline (the `isReadyToDiff` flag).

Modules:

- `Wrappers` (wrappers.dfy): `Option`, for the source's `undefined`.
- `Pixels` (pixels.dfy): clamped bytes, the luminance-weighted difference and the green intensity.
  Every luminance quantity is kept ten times larger, so the comparison is over integers:
  `3R + 6G + B >= 10 * pixelDiffThreshold`.
- `Geometry` (geometry.dfy): `calculateCoordinates`, `calculateMotionBox`, `calculateMotionPixels`,
  `checkMotionPixel`.
- `DiffSpec`, `DiffLemmas`, `DiffResults` (diff_spec.dfy): what one pass computes, as functions of
  the difference buffer, and the lemmas about them.
- `MotionDetection` (motion_detector.dfy): the service as a class with the source's fields.
  - `ProcessDiff` is a `while` loop over an `array<Byte>`, rewriting it in place.
  - `Init`, `SetCaptureParameters`, `Stop`, `Capture` and the threshold setters update the fields.
- `Findings` (findings.dfy): the fractional diff width, as written (see Findings).

## Model

| member | source | states |
|---|---|---|
| Pixels.ClampToByte | src/app/core/vision/motion-detector.service.ts:267-268 | storing a number into the clamped byte array gives 0 for non-positive values and 255 from 255 up. Anything else becomes the nearest integer, with ties going to the even one |
| Pixels.TenfoldDiff | src/app/core/vision/motion-detector.service.ts:262 | ten times `0.3 R + 0.6 G + 0.1 B` lies in [0, 2550]. It is 0 exactly when the pixel's R, G and B differences are all 0 |
| Pixels.Green | src/app/core/vision/motion-detector.service.ts:263-268 | the green byte is 0 for a zero difference and 0 for a negative threshold. With a zero threshold a non-zero difference gives 255 (infinite product). With a positive threshold, a pixel at or above it gives 255, and below it the byte is the nearest integer to `pixelDiff * 255 / threshold`, ties to the even one |
| Geometry.CalculateCoordinates | src/app/core/vision/motion-detector.service.ts:301-306 | `0 <= x < diffWidth`, `y >= 0` and `y * diffWidth + x` is the pixel index |
| Geometry.FlatIndex | src/app/core/vision/motion-detector.service.ts:301-306 | every in-frame coordinate is the coordinate of exactly one index inside the frame (the inverse of `calculateCoordinates`) |
| Geometry.CoordinatesRoundTrip | src/app/core/vision/motion-detector.service.ts:301-306 | a coordinate with `0 <= x < width`, `y >= 0` is recovered from its row-major index |
| Geometry.CoordinatesInFrame | src/app/core/vision/motion-detector.service.ts:301-306 | an index below `width * height` lands on a row below `height` |
| Geometry.CalculateMotionBox | src/app/core/vision/motion-detector.service.ts:308-321 | the result contains the point and encloses the old box. It is the point box when there was none, and unchanged when the point was already inside. It stays well formed, and every edge is an old edge or passes through the point (so it is the smallest such box) |
| Geometry.CalculateMotionPixels | src/app/core/vision/motion-detector.service.ts:323-328 | after the call, exactly the old entries and (x, y) are set |
| DiffSpec.RewrittenPixel | src/app/core/vision/motion-detector.service.ts:261-269 | every rewritten pixel is R = 0, G = green intensity of its difference, B = 0, alpha unchanged |
| DiffSpec.Report | src/app/core/vision/motion-detector.service.ts:226-231 | `hasMotion` iff `score >= scoreThreshold`. A box implies motion and `score > scoreThreshold`. At `score == scoreThreshold` there is motion but no box. Motion pixels are present iff requested |
| DiffLemmas.ScoreIsCount | src/app/core/vision/motion-detector.service.ts:258-272 | the score equals the number of pixel indices whose weighted difference is at or above `pixelDiffThreshold` |
| DiffLemmas.ScoreMonotone | src/app/core/vision/motion-detector.service.ts:271-272 | lowering `pixelDiffThreshold` never lowers the score |
| DiffLemmas.BoxOfTight | src/app/core/vision/motion-detector.service.ts:275-277 | the grown box is absent iff no pixel qualified. Otherwise it is well formed, holds every qualifying coordinate, and each edge passes through one (the tightest box) |
| DiffLemmas.MaskOfExact | src/app/core/vision/motion-detector.service.ts:279-286 | the table has (x, y) set iff (x, y) is the coordinate of a qualifying pixel |
| DiffResults.DiffBox | src/app/core/vision/motion-detector.service.ts:294-298 | the returned box is present iff boxes are requested, a pixel qualified and `score > scoreThreshold`. It is then well formed and inside `[0, diffWidth) x [0, diffHeight)` |
| DiffResults.DiffMotionPixels | src/app/core/vision/motion-detector.service.ts:336-338 | `checkMotionPixel(motionPixels, x, y)` holds iff motion pixels are requested, (x, y) is in the frame and that pixel qualifies |
| DiffResults.StillFrame | src/app/core/vision/motion-detector.service.ts:261-272 | an all-zero difference (identical frames) is left unchanged by the rewrite. With a positive pixel threshold it gives score 0, no box and an empty table |
| DiffResults.SinglePixelMotion | src/app/core/vision/motion-detector.service.ts:271-298 | with exactly one qualifying pixel the score is 1 and motion is reported iff `scoreThreshold <= 1`. The box is that single point iff `scoreThreshold < 1` |
| DiffResults.QualifyingPixelSaturates | src/app/core/vision/motion-detector.service.ts:262-268 | with a positive threshold a qualifying pixel is drawn at full green, 255 |
| MotionDetection.DiffDimension | src/app/core/vision/motion-detector.service.ts:102-103 | the diff size is the whole number of 10-pixel blocks in the capture size, at least 1 |
| MotionDetection.MotionDetectorService.constructor | src/app/core/vision/motion-detector.service.ts:47 | a new service has undefined sizes (not valid) and is not ready to diff |
| MotionDetection.MotionDetectorService.Init | src/app/core/vision/motion-detector.service.ts:49-77 | without options nothing changes and the error "No options object provided" is returned. Otherwise falsy numeric options take their defaults (interval 100, capture 640x480, pixel threshold 32, score threshold 16) and booleans default to false. The diff size options are overwritten by the derived size, and the ready flag is cleared |
| MotionDetection.MotionDetectorService.SetCaptureParameters | src/app/core/vision/motion-detector.service.ts:79-113 | the capture size is taken from the DOM probe where it has one. `diffWidth`/`diffHeight` become the capture size divided by `SCALE`, truncated to whole pixels |
| MotionDetection.MotionDetectorService.Stop | src/app/core/vision/motion-detector.service.ts:172-177 | `isReadyToDiff` becomes false and nothing else changes |
| MotionDetection.MotionDetectorService.Capture | src/app/core/vision/motion-detector.service.ts:179-252 | if the service was ready, the buffer is rewritten and the event is `Report` of the old buffer. Otherwise the buffer is untouched and no event is produced. Either way the service is ready afterwards |
| MotionDetection.MotionDetectorService.ProcessDiff | src/app/core/vision/motion-detector.service.ts:254-299 | the buffer becomes `Rewritten` of the old buffer. The result is the score, the box gated on `score > scoreThreshold`, and the motion pixel table of the old buffer |
| MotionDetection.MotionDetectorService.SetPixelDiffThreshold | src/app/core/vision/motion-detector.service.ts:340-346 | `getPixelDiffThreshold()` returns the value set, and no other field changes |
| MotionDetection.MotionDetectorService.SetScoreThreshold | src/app/core/vision/motion-detector.service.ts:348-354 | `getScoreThreshold()` returns the value set, and no other field changes |
| MotionDetection.FirstCaptureAfterStopIsBaseline | src/app/core/vision/motion-detector.service.ts:211-251 | after `stop` the first capture reports nothing and leaves its buffer as it was; the next capture reports |
| Findings.FractionalWidthLeavesFrame | src/app/core/vision/motion-detector.service.ts:102-103 | for every capture width that is not a multiple of 10, the as-written coordinates put the first pixel of row 1 at x = frame width (off the frame). The truncated width puts it at (0, 1) |
| Findings.ContainerWidth735 | src/app/core/vision/motion-detector.service.ts:102-103 | a 735 pixel container gives `diffWidth` 73.5, a 73 pixel image, and pixel 73 at (73, 0) instead of (0, 1) |

## Left out

- Webcam acquisition and events are browser I/O and scheduling, so they are not modelled:
  - `requestWebcam`, `initSuccess`, `initError`, `start` and `startWithStream`;
  - the `canplay` listener and `startComplete`'s `setInterval`;
  - the RxJS subjects.
  `startComplete`'s call to `setCaptureParameters` is `SetCaptureParameters`.
- Canvas work is not modelled: the `"difference"` composite, `drawImage`, `getImageData`, `putImageData`, the box's `strokeRect`, `stop`'s `clearRect`, and `getCaptureUrl`.
  - The differenced buffer is a parameter of `Capture`/`ProcessDiff`.
  - The canvas holding the previous frame is not represented.
  - The event's `imageData`, `getURL` and `checkMotionPixel` closures are absent (source :232-237). Inside that `checkMotionPixel` closure `this` is the event object, so it calls itself with shifted arguments instead of the service's method; the model has only the service's `checkMotionPixel`, as `Geometry.CheckMotionPixel`.
- The DOM sizes that `setCaptureParameters` reads (`offsetWidth`/`offsetHeight`, `videoWidth`/`videoHeight`) are a `Probe` parameter. A missing container is an offset of 0, which takes the same branch.
- The `video`, `videoContainer` and `motionCanvas` options are DOM objects and are not modelled.
- Options are assumed well typed: numbers are integers and booleans are booleans. Truthy non-boolean flags and non-numeric values are not modelled.
- Thresholds are integers, while JavaScript accepts any number (fractions, NaN).
- Pixels.Green: the weights 0.3/0.6/0.1 and `255 / threshold` are taken as exact rationals, then rounded as a clamped byte store rounds. The IEEE double rounding of the products is not modelled, so at a rounding boundary the stored green byte can differ by one.
- Pixels.Qualifies: the comparison is exact, `3R + 6G + B >= 10 * threshold`. The double sum can land just beside the threshold when the exact value equals it.
- MotionDetection.MotionDetectorService.SetCaptureParameters: the source keeps the fractional quotient `captureWidth / SCALE` at :102-103; the model stores the truncated `DiffDimension` the canvas uses (see Findings).
- MotionDetection.MotionDetectorService.Init and SetCaptureParameters require the resulting capture size to be at least 10 pixels per side, so the diff frame has at least one pixel. The source does not check this, and a smaller or negative size gives an empty or invalid canvas.
- MotionDetection.MotionDetectorService.Capture requires the buffer to hold `4 * diffWidth * diffHeight` bytes. That is what the diff canvas returns; the source has no dimension-mismatch error.
- The motion box and the motion pixel table are values here.
  - In the source they are objects mutated in place.
  - They are created fresh in each `processDiff` and not shared before it returns, so the two behave the same.
- `checkMotionPixel` returns a JavaScript truthy value (`undefined`, an array or `true`); here it is a boolean.
- MotionDetection.FirstCaptureAfterStopIsBaseline assumes the two buffers are distinct, as the diff canvas returns a fresh image each tick.
- Behaviour at the edges of the threshold settings follows the code:
  - Identical frames give `hasMotion` false only when `scoreThreshold > 0`. Options cannot give 0 (it becomes 16), but the setter can.
  - A pixel threshold of 0 or below makes every pixel qualify.
- src/app/app.component.ts (UI state and timers), src/app/core/core.module.ts (dependency wiring) and src/app/shared/model/motion-event.ts (a plain holder) are outside the modelled core.

## Findings

| source | as written | input that shows it | evidently intended | confidence | as-written member | corrected member |
|---|---|---|---|---|---|---|
| src/app/core/vision/motion-detector.service.ts:102-103 | `diffWidth = captureWidth / getScale()` is floating point, and `calculateCoordinates` divides pixel indices by it, while the canvas and its image data are truncated to whole pixels | a 735 pixel wide video container: `diffWidth` is 73.5, the image is 73 pixels wide, and pixel 73 (first of row 1) gets x = 73, y = 0, outside the frame | a whole-pixel diff width, `floor(captureWidth / 10)`, which places pixel 73 at (0, 1) | medium (depends on the canvas truncating the width); not executed | Findings.FractionalWidthLeavesFrame | MotionDetection.DiffDimension |

# Heart-rate windowing in `CropImage`, modelled in Dafny

This project models the per-frame core of the remote-photoplethysmography
app: the `CropImage` class.

For each camera frame that has a detected face, `CropImage` does four things:

1. It picks up to four forehead anchor points from the face's contours.
2. It fills the polygon they form and takes the mean, inside it, of plane 2
   of the split frame (the source's `RedAvg`).
3. It appends that mean to `RedAvgList` and counts the frame.
4. Once ten seconds have passed since the static `startTime`, it computes
   the window's sampling rate. It hands the sample list to the frequency
   estimator and publishes `ceil(HRFreq * 60)` beats per minute in
   `vitals[0]`.

Files and modules:

- `java_numerics.dfy`, module `JavaNumerics`: Java's `(int)` narrowing of a
  `float`/`double` (round toward zero, then saturate; section 5.1.3 of the
  Java Language Specification) and `Math.ceil`, over reals.
- `sequences.dfy`, module `Sequences`: `ConcatMap`, the concatenation of
  what a function gives for each element of a sequence, with its lemmas.
- `landmarks.dfy`, module `Landmarks`: the detector's values (`PointF`,
  `FaceContour`, `Face`) and the integer pixel `Point` built from them.
- `forehead_roi.dfy`, module `ForeheadRoi`: anchor selection. The loops of
  `convertToMatrix` are modelled as the methods `AppendContourAnchors`
  (inner loop) and `CollectForeheadPoints` (outer loop). They are proved
  equal to the specification functions `ContourVertices` and
  `ForeheadPolygon`, which follow the loops point by point. Those functions
  are in turn proved equal to an independent description by anchor
  position: `AnchorVertices` for one contour, and `AnchorPolygon`, which
  joins each contour's anchors contour after contour, for the face.
- `crop_image.dfy`, module `CropImagePipeline`: the `CropImage` class with
  `ConvertToMatrix`, `SetVariables` and `ConvertToMOP`. The static
  `startTime` lives in a separate object, `CropImageStatics`, which every
  instance shares. The window step is specified by the function `Tick` over
  a `Window` value, and lemmas about runs of frames (`Run`) state what holds
  across many frames.

Calls into code that is not part of the model are parameters:

- The wall clock: the two `System.currentTimeMillis()` reads, `endTime` at
  the window test and the restamp time.
- `FFT.FFT`: a function value of type `FrequencyEstimator`.
- The decoded frame: a function `RedMean` from the polygon to the mean of
  plane 2 of the split frame (the source's `RedAvg`) inside it.
  This stands for `BitmapUtils.getBitmap`, the mask fill and `Core.mean`. A
  null byte buffer is `None`.

A `vitals` entry is an `int k` that stands for the text
`String.valueOf((double) k)`. So `0` is the text `"0.0"`.

The model follows the code where it differs from what the names in it
suggest:

- A missing anchor does not become a `(0, 0)` vertex. The polygon is built
  from the `points` list, and the zero-initialised `forehead_*` locals are
  never read. So a missing anchor makes the polygon shorter.
- Vertices follow the order of `getAllContours()`. Inside a type-1
  contour, index 2 comes before index 33. With the contours listed type 1,
  type 2, others, type 4, others (`FullForeheadQuad`), the order is
  (type 1, index 2), (type 1, index 33), (type 2, index 2), (type 4,
  index 2). It is not upper-left first.
- `RedAvgList` is never cleared. Only `counter` is reset when a window
  closes, and the estimator receives the whole list.
- The window starts again at a second clock read, not at the read used
  for the test.

## Model

| member | source | states |
|---|---|---|
| JavaNumerics.TruncateTowardZero | app/src/main/java/com/example/android/remedicappml/CropImage.java:147 | the result is the integer next to `x` in the direction of zero: never farther from zero than `x`, and less than one away from it |
| JavaNumerics.NarrowToInt | app/src/main/java/com/example/android/remedicappml/CropImage.java:147-162 | `(int)` of a float stays within `int`, rounds toward zero inside the range, and saturates at `Integer.MAX_VALUE`/`MIN_VALUE` outside it |
| JavaNumerics.Ceil | app/src/main/java/com/example/android/remedicappml/CropImage.java:190 | `ceil(x)` is the least integer not below `x`: `x <= r < x + 1` |
| Landmarks.TruncatePoint | app/src/main/java/com/example/android/remedicappml/CropImage.java:147 | each vertex coordinate is the truncation toward zero of the float coordinate, within the `int` range |
| ForeheadRoi.IsAnchorSlot | app/src/main/java/com/example/android/remedicappml/CropImage.java:145-163 | the definition the loops are proved against: a point is appended when its (type, index) pair is (1, 33), (1, 2), (2, 2) or (4, 2), the four tests of the inner loop |
| ForeheadRoi.AnchorTestsExclusive | app/src/main/java/com/example/android/remedicappml/CropImage.java:145-163 | the four tests exclude each other: a point passes at most one, and passes one exactly at an anchor slot, so no point is appended twice |
| ForeheadRoi.ContourPrefixVertices | app/src/main/java/com/example/android/remedicappml/CropImage.java:143-165 | after the inner loop has seen `n` points, the appended vertices are exactly the anchors among those `n` points, by position; the four tests exclude each other, so no point is added twice |
| ForeheadRoi.AnchorsBelowStep | app/src/main/java/com/example/android/remedicappml/CropImage.java:144-164 | visiting point `m` appends its truncation exactly when `(type, m)` is an anchor slot, and nothing otherwise |
| ForeheadRoi.ContourVertices | app/src/main/java/com/example/android/remedicappml/CropImage.java:142-165 | one contour yields its anchors by position (for type 1, index 2 before index 33), as many as it has anchor positions; a contour too short for an index yields nothing for it |
| ForeheadRoi.PolygonOf | app/src/main/java/com/example/android/remedicappml/CropImage.java:142-166 | the outer loop over a contour list gives each contour's anchors, contour after contour (`AnchorPolygon`) |
| ForeheadRoi.ForeheadPolygon | app/src/main/java/com/example/android/remedicappml/CropImage.java:133-168 | the polygon handed to the fill is `AnchorPolygon` of the face's contours, with exactly one vertex per anchor position present |
| ForeheadRoi.PolygonOfAppend | app/src/main/java/com/example/android/remedicappml/CropImage.java:142-166 | the polygon of a split contour list is the two polygons joined in order |
| ForeheadRoi.PolygonLength | app/src/main/java/com/example/android/remedicappml/CropImage.java:133-166 | the polygon has exactly one vertex per (contour, anchor position) present, so a missing anchor shortens it |
| ForeheadRoi.ContourVertexIff | app/src/main/java/com/example/android/remedicappml/CropImage.java:144-164 | a point is a vertex from one contour if and only if it is the truncation of that contour's point at an anchor position |
| ForeheadRoi.PolygonVertexSound | app/src/main/java/com/example/android/remedicappml/CropImage.java:142-166 | every polygon vertex is the truncation of some contour's point at an anchor position |
| ForeheadRoi.PolygonVertexComplete | app/src/main/java/com/example/android/remedicappml/CropImage.java:142-166 | every anchor point of every contour is in the polygon |
| ForeheadRoi.PolygonVertexIff | app/src/main/java/com/example/android/remedicappml/CropImage.java:142-166 | both directions together: the polygon's vertices are exactly the truncated anchor points |
| ForeheadRoi.NoZeroDefaultVertex | app/src/main/java/com/example/android/remedicappml/CropImage.java:133-168 | the zero defaults never reach the polygon: `(0, 0)` is a vertex only if some anchor point truncates to it |
| ForeheadRoi.NonAnchorContoursAddNothing | app/src/main/java/com/example/android/remedicappml/CropImage.java:142-166 | contours of types other than 1, 2 and 4 add no vertex |
| ForeheadRoi.FullForeheadQuad | app/src/main/java/com/example/android/remedicappml/CropImage.java:139-168 | for contours ordered `[type 1, type 2] + others + [type 4] + others`, where no other contour has type 1, 2 or 4 and every anchor is present, the polygon is the four points (type 1 at 2, type 1 at 33, type 2 at 2, type 4 at 2) in that order |
| ForeheadRoi.AppendContourAnchors | app/src/main/java/com/example/android/remedicappml/CropImage.java:143-165 | the inner loop appends exactly `ContourVertices(contour)` to the list it is given |
| ForeheadRoi.CollectForeheadPoints | app/src/main/java/com/example/android/remedicappml/CropImage.java:138-166 | the nested loops build exactly `ForeheadPolygon(face)`, of length equal to the number of anchor positions present |
| CropImagePipeline.WindowInv | app/src/main/java/com/example/android/remedicappml/CropImage.java:64-74 | the window's invariant: two `vitals` entries with the second "0.0", and `counter` between 0 and the length of `RedAvgList` |
| CropImagePipeline.ElapsedSeconds | app/src/main/java/com/example/android/remedicappml/CropImage.java:179 | `totalTimeInSecs` times 1000 is the elapsed milliseconds, and it is non-negative exactly when the clock has not gone back |
| CropImagePipeline.WindowElapsed | app/src/main/java/com/example/android/remedicappml/CropImage.java:178-182 | the test `totalTimeInSecs >= 10` holds exactly when `endTime - startTime >= 10000` ms |
| CropImagePipeline.SamplingFrequency | app/src/main/java/com/example/android/remedicappml/CropImage.java:185 | the rate times the elapsed seconds gives back the count; it is positive for a count of at least 1 and at most count/10 over a window of ten seconds or more |
| CropImagePipeline.Bpm | app/src/main/java/com/example/android/remedicappml/CropImage.java:190 | `(int) ceil(HRFreq * 60)` lies in `[HRFreq*60, HRFreq*60 + 1)` within the `int` range, saturates at `Integer.MAX_VALUE` above it and at `Integer.MIN_VALUE` below it, and is never negative for a non-negative frequency |
| CropImagePipeline.BpmRoundsUp | app/src/main/java/com/example/android/remedicappml/CropImage.java:190 | 1.2001 Hz gives 73 beats, not 72; 1.2 Hz gives 72 |
| CropImagePipeline.Tick | app/src/main/java/com/example/android/remedicappml/CropImage.java:176-199 | one frame appends its sample and keeps the invariant. The counter becomes 0 exactly when the window elapses. Otherwise start time, rate and vitals are unchanged and the counter grows by one. On elapse, the start is restamped, the rate is `SamplingFrequency(counter + 1, ElapsedSeconds(startTime, endTime))` and positive, and `vitals` becomes `[bpm, "0.0"]` with the estimator fed the whole list and the window's count |
| CropImagePipeline.InitialWindow | app/src/main/java/com/example/android/remedicappml/CropImage.java:52-74 | the initial state (start time 0, no samples, vitals "0.0", "0.0") satisfies the invariant |
| CropImagePipeline.RunKeepsEverySample | app/src/main/java/com/example/android/remedicappml/CropImage.java:176 | after any frames, `RedAvgList` is the old list followed by every sample in order, so its length grows by the number of frames |
| CropImagePipeline.RunKeepsInvariant | app/src/main/java/com/example/android/remedicappml/CropImage.java:176-199 | two vitals entries with the second "0.0", and `counter` between 0 and the length of `RedAvgList`, hold after any number of frames |
| CropImagePipeline.QuietRun | app/src/main/java/com/example/android/remedicappml/CropImage.java:176-199 | while no frame reaches ten seconds, K frames raise the counter by K and append their samples in order; start time, rate and vitals stay the same |
| CropImagePipeline.FirstFrameClosesWindow | app/src/main/java/com/example/android/remedicappml/CropImage.java:52-197 | because `startTime` starts at 0, the first frame at any clock value of 10000 ms or more closes a one-sample window: rate `1000/endTime`, estimator called with `[sample]` and count 1 |
| CropImagePipeline.CropImageStatics.constructor | app/src/main/java/com/example/android/remedicappml/CropImage.java:52 | the static `startTime` starts at 0 |
| CropImagePipeline.CropImage.Valid | app/src/main/java/com/example/android/remedicappml/CropImage.java:52-74 | the object's invariant: `vitals` has two entries with the second "0.0", and `counter` lies between 0 and the length of `RedAvgList` |
| CropImagePipeline.CropImage.Snapshot | app/src/main/java/com/example/android/remedicappml/CropImage.java:52-69 | the object's state read as a `Window` satisfies the window invariant whenever the object is valid |
| CropImagePipeline.CropImage.constructor | app/src/main/java/com/example/android/remedicappml/CropImage.java:71-74 | a new object has an empty list, counter 0, rate 0 and a fresh two-entry `vitals` of "0.0", "0.0"; the shared start time is untouched |
| CropImagePipeline.CropImage.ConvertToMatrix | app/src/main/java/com/example/android/remedicappml/CropImage.java:93-201 | the new state is `Tick` of the old one, fed the plane-2 mean (`RedAvg`) over `ForeheadPolygon(face)`; it returns the shared `vitals` array itself |
| CropImagePipeline.CropImage.SetVariables | app/src/main/java/com/example/android/remedicappml/CropImage.java:76-91 | with bytes present and at least one face, only the first face is processed; with no face or a null buffer nothing changes and the current `vitals` are returned |
| CropImagePipeline.CropImage.ConvertToMOP | app/src/main/java/com/example/android/remedicappml/CropImage.java:269-282 | one truncated integer point per contour point, in the same order |
| CropImagePipeline.FirstTwoFrames | app/src/main/java/com/example/android/remedicappml/CropImage.java:176-199 | in a fresh process, with each frame's clock read also used as its restamp time, the first frame (at 10 s or later) publishes `Bpm` of the estimate over its one-sample window at rate `1000/t1`, a second frame within ten seconds leaves it unchanged, and both samples are kept |

## Left out

- Floating point: `float` coordinates and `double` means, times and frequencies are reals. Rounding in `HRFreq * 60`, in `/ 1000d` and in `counter / totalTimeInSecs` is not modelled. NaN and infinities are not modelled either.
- Integer widths: `long` clock arithmetic and the `int` counter are unbounded. Neither can overflow with real clock values and ten-second windows.
- `String.valueOf(double)` formatting: a `vitals` entry is the integer whose `double` value is printed.
- OpenCV: `Utils.bitmapToMat`, the mask, `Imgproc.fillConvexPoly`, `Core.split` and `Core.mean` are one `RedMean` function of the polygon. Which plane `lab_list.get(2)` is depends on OpenCV's channel layout, which is not part of this model. `fillArea` is unused and left out.
- `FFT.FFT` is not part of this model. It is the `FrequencyEstimator` parameter, so nothing is proved about the frequency it returns.
- `BitmapUtils.getBitmap`, `getOutputMediaFile` and `writeToDirectory` (bitmap decoding and file I/O) are left out. `Log.d` is left out.
- The fields `faces`, `vm` and `context` are written or declared but never read by the modelled code, so they are not modelled.
- `bitmap` is read at CropImage.java:87 and is modelled as the frame `data.value`. Only keeping the last bitmap in the field is not modelled.
- The oxygen-saturation fields (`RedBlueRatio`, `Stdr`, `Stdb`, `sumred`, `sumblue`, `o2`, `BlueAvgList`) are never used and are not modelled.
- The `forehead_*` locals are never read, so they are not modelled.
- `vitals` is modelled as a two-element array returned by reference. A caller that adds to or removes from the returned `ArrayList` is not modelled.
- A null `faces` list (the `for` at CropImage.java:81 would throw on it) is not modelled: a Dafny sequence cannot be null. A null bitmap from `getBitmap` (which `Utils.bitmapToMat` at CropImage.java:96 would reject) is not modelled either: the decoded frame is the total `RedMean` function.
- Threads: the source has no locking. Calls are modelled as strictly one after another.
- The other files of the repository (face overlay drawing, vitals text overlay, view model) are UI and are not part of this model.

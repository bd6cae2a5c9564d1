/** The per-frame heart-rate pipeline of `CropImage`: each processed frame
    adds one channel mean (plane 2 of the split frame, the source's
    `RedAvg`) to `RedAvgList` and counts it; once ten seconds
    have passed since the static `startTime`, the sampling rate of the
    window is computed, the whole sample list goes to the frequency
    estimator, and the rounded-up beats per minute are published in the
    first of the two `vitals` slots.

    Calls into code outside this class are parameters: the wall clock
    (two reads, `endTime` and the restamp), the frequency estimator
    `FFT.FFT`, and the decoded frame, seen only through the mean of plane 2
    of the split frame (the source's `RedAvg`) over the filled forehead
    polygon. */
module CropImagePipeline {
  import opened JavaNumerics
  import opened Landmarks
  import opened ForeheadRoi

  datatype Option<T> = None | Some(value: T)

  /** Window length: the elapsed time in seconds is compared with 10. */
  const WindowMillis: int := 10000

  /** A `vitals` entry `k` stands for the text `String.valueOf((double) k)`;
      `Unset` is the text "0.0". */
  const Unset: int := 0

  /** `FFT.FFT(samples, count, samplingFreq)`: the estimated heart-rate
      frequency in Hz. Its code is not part of this model. */
  type FrequencyEstimator = (seq<real>, int, real) -> real

  /** A decoded frame, seen through `Core.mean` of plane 2 of the split
      frame (the source's `RedAvg`) over the polygon filled into the mask. */
  type RedMean = seq<Point> -> real

  // ---------------------------------------------------------------------
  // Specification of one frame

  /** Everything a processed frame reads and writes: the static
      `startTime`, `SamplingFreq`, `RedAvgList`, `counter` and `vitals`. */
  datatype Window = Window(startTime: int, samplingFreq: real, redAvgList: seq<real>,
                           counter: int, vitals: seq<int>)

  /** What holds between frames: two vitals entries, the second always
      "0.0", and a counter that never exceeds the number of samples kept. */
  predicate WindowInv(w: Window) {
    |w.vitals| == 2 && w.vitals[1] == Unset && 0 <= w.counter <= |w.redAvgList|
  }

  /** `(endTime - startTime) / 1000d`: the clock difference in milliseconds,
      as seconds. */
  function ElapsedSeconds(startTime: int, endTime: int): (seconds: real)
    ensures seconds * 1000.0 == (endTime - startTime) as real
    ensures startTime <= endTime <==> 0.0 <= seconds
  {
    (endTime - startTime) as real / 1000.0
  }

  /** The window is over once the elapsed time reaches ten seconds, that is
      once the clock has advanced by `WindowMillis` since the window began. */
  predicate WindowElapsed(startTime: int, endTime: int)
    ensures WindowElapsed(startTime, endTime) <==> endTime - startTime >= WindowMillis
  {
    ElapsedSeconds(startTime, endTime) >= 10.0
  }

  /** `counter / totalTimeInSecs`: samples per second over the window. */
  function SamplingFrequency(count: int, seconds: real): (f: real)
    requires seconds > 0.0
    ensures f * seconds == count as real
    ensures count >= 1 ==> f > 0.0
    ensures count >= 0 && seconds >= 10.0 ==> f <= count as real / 10.0
  {
    var f := count as real / seconds;
    assert count >= 0 && seconds >= 10.0 ==> f * 10.0 <= f * seconds;
    f
  }

  /** `(int) ceil(HRFreq * 60)`: beats per minute, rounded up. */
  function Bpm(hrFreq: real): (bpm: int)
    ensures InIntRange(hrFreq * 60.0) ==> hrFreq * 60.0 <= bpm as real < hrFreq * 60.0 + 1.0
    ensures hrFreq * 60.0 > IntMax as real ==> bpm == IntMax
    ensures hrFreq * 60.0 < IntMin as real ==> bpm == IntMin
    ensures hrFreq >= 0.0 ==> 0 <= bpm
  {
    var x := hrFreq * 60.0;
    var up := Ceil(x);
    var bpm := NarrowToInt(up as real);
    assert IntMin <= up <= IntMax ==> bpm == up by {
      if IntMin <= up <= IntMax {
        assert InIntRange(up as real);
      }
    }
    assert InIntRange(x) ==> IntMin <= up <= IntMax;
    bpm
  }

  /** One call of `convertToMatrix` after the polygon's mean `sample` has
      been taken, with `endTime` the clock read at the window test and
      `restampTime` the clock read that restarts the window. */
  function Tick(w: Window, sample: real, endTime: int, restampTime: int, fft: FrequencyEstimator): (w': Window)
    ensures WindowInv(w) ==> WindowInv(w')
    ensures w'.redAvgList == w.redAvgList + [sample]
    ensures w.counter >= 0 ==> (w'.counter == 0 <==> WindowElapsed(w.startTime, endTime))
    ensures !WindowElapsed(w.startTime, endTime) ==>
      w'.startTime == w.startTime && w'.samplingFreq == w.samplingFreq &&
      w'.counter == w.counter + 1 && w'.vitals == w.vitals
    ensures WindowElapsed(w.startTime, endTime) ==>
      w'.startTime == restampTime && w'.counter == 0 &&
      w'.samplingFreq == SamplingFrequency(w.counter + 1, ElapsedSeconds(w.startTime, endTime)) &&
      (w.counter >= 0 ==> w'.samplingFreq > 0.0) &&
      w'.vitals == [Bpm(fft(w'.redAvgList, w.counter + 1, w'.samplingFreq)), Unset]
  {
    var red := w.redAvgList + [sample];
    var counter := w.counter + 1;
    if WindowElapsed(w.startTime, endTime) then
      var freq := SamplingFrequency(counter, ElapsedSeconds(w.startTime, endTime));
      Window(restampTime, freq, red, 0, [Bpm(fft(red, counter, freq)), Unset])
    else
      Window(w.startTime, w.samplingFreq, red, counter, w.vitals)
  }

  /** The state of a freshly constructed `CropImage` whose class was just
      initialised: `startTime` is 0 and both vitals read "0.0". */
  function InitialWindow(): (w: Window)
    ensures WindowInv(w)
  {
    Window(0, 0.0, [], 0, [Unset, Unset])
  }

  /** One processed frame: its channel mean and the two clock reads. */
  datatype Frame = Frame(sample: real, endTime: int, restampTime: int)

  function Samples(frames: seq<Frame>): seq<real> {
    if frames == [] then [] else Samples(frames[..|frames| - 1]) + [frames[|frames| - 1].sample]
  }

  /** The state after processing `frames` in order. */
  function Run(w: Window, frames: seq<Frame>, fft: FrequencyEstimator): Window {
    if frames == [] then w
    else
      var last := frames[|frames| - 1];
      Tick(Run(w, frames[..|frames| - 1], fft), last.sample, last.endTime, last.restampTime, fft)
  }

  // ---------------------------------------------------------------------
  // Properties of a run of frames

  /** `RedAvgList` is never cleared: it holds every sample ever taken, in
      order, so its length is the number of processed frames. */
  lemma {:induction false} RunKeepsEverySample(w: Window, frames: seq<Frame>, fft: FrequencyEstimator)
    ensures Run(w, frames, fft).redAvgList == w.redAvgList + Samples(frames)
    ensures |Run(w, frames, fft).redAvgList| == |w.redAvgList| + |frames|
  {
    if frames != [] {
      RunKeepsEverySample(w, frames[..|frames| - 1], fft);
    }
  }

  /** The invariant holds after any number of frames. */
  lemma {:induction false} RunKeepsInvariant(w: Window, frames: seq<Frame>, fft: FrequencyEstimator)
    requires WindowInv(w)
    ensures WindowInv(Run(w, frames, fft))
  {
    if frames != [] {
      RunKeepsInvariant(w, frames[..|frames| - 1], fft);
    }
  }

  /** While no frame reaches the ten-second mark, frames are only counted
      and appended in order; the window start, the sampling rate and the
      published vitals stay as they were. */
  lemma {:induction false} QuietRun(w: Window, frames: seq<Frame>, fft: FrequencyEstimator)
    requires forall k | 0 <= k < |frames| :: !WindowElapsed(w.startTime, frames[k].endTime)
    ensures Run(w, frames, fft) ==
      Window(w.startTime, w.samplingFreq, w.redAvgList + Samples(frames), w.counter + |frames|, w.vitals)
  {
    if frames != [] {
      var init := frames[..|frames| - 1];
      assert forall k | 0 <= k < |init| :: init[k] == frames[k];
      QuietRun(w, init, fft);
      assert !WindowElapsed(w.startTime, frames[|frames| - 1].endTime);
    }
  }

  /** Because the static `startTime` starts at 0, the first frame processed
      at any clock reading of ten seconds or more opens a window with a
      single sample: the rate is one sample over the whole clock value, the
      estimator sees the one-element list and the count 1. */
  lemma FirstFrameClosesWindow(sample: real, endTime: int, restampTime: int, fft: FrequencyEstimator)
    requires endTime >= WindowMillis
    ensures var f := 1000.0 / endTime as real;
      Tick(InitialWindow(), sample, endTime, restampTime, fft) ==
        Window(restampTime, f, [sample], 0, [Bpm(fft([sample], 1, f)), Unset])
  {
    var e := endTime as real;
    var seconds := ElapsedSeconds(0, endTime);
    assert seconds == e / 1000.0;
    var f := SamplingFrequency(1, seconds);
    assert f == 1000.0 / e by {
      assert f * seconds == 1.0;
      assert (1000.0 / e) * seconds == 1.0;
    }
    var w := Tick(InitialWindow(), sample, endTime, restampTime, fft);
    assert WindowElapsed(0, endTime);
    assert w.redAvgList == [sample] && w.samplingFreq == f;
  }

  /** Rounding is upward, not to the nearest: 1.2001 Hz gives 73 beats. */
  lemma BpmRoundsUp()
    ensures Bpm(1.2001) == 73
    ensures Bpm(1.2) == 72
  {
    assert 1.2001 * 60.0 == 72.006;
    assert 1.2 * 60.0 == 72.0;
  }

  // ---------------------------------------------------------------------
  // The class

  /** The static fields of `CropImage`, shared by all its instances. */
  class CropImageStatics {
    /** `startTime`: the clock reading at which the current window began. */
    var startTime: int

    /** Class initialisation. */
    constructor ()
      ensures startTime == 0
    {
      startTime := 0;
    }
  }

  class CropImage {
    const statics: CropImageStatics
    var samplingFreq: real
    var redAvgList: seq<real>
    var counter: int
    /** The list returned to every caller; its two entries are the heart rate
        and the oxygen-saturation placeholder. */
    const vitals: array<int>

    ghost predicate Valid()
      reads this, vitals
    {
      vitals.Length == 2 && vitals[1] == Unset && 0 <= counter <= |redAvgList|
    }

    /** The state as the window specification sees it. */
    function Snapshot(): (w: Window)
      reads this, statics, vitals
      ensures Valid() ==> WindowInv(w)
    {
      Window(statics.startTime, samplingFreq, redAvgList, counter, vitals[..])
    }

    constructor (statics: CropImageStatics)
      ensures Valid() && fresh(vitals) && this.statics == statics
      ensures Snapshot() == Window(statics.startTime, 0.0, [], 0, [Unset, Unset])
      ensures statics.startTime == old(statics.startTime)
    {
      this.statics := statics;
      samplingFreq := 0.0;
      redAvgList := [];
      counter := 0;
      var v := new int[2];
      v[0], v[1] := Unset, Unset;
      vitals := v;
    }

    /** Processes one frame for one face: builds the forehead polygon, takes
        the mean of plane 2 of the split frame over it, then runs the
        window step. Returns
        the shared `vitals` list itself. */
    method ConvertToMatrix(redMean: RedMean, face: Face, endTime: int, restampTime: int, fft: FrequencyEstimator)
      returns (result: array<int>)
      requires Valid()
      modifies this, statics, vitals
      ensures Valid() && result == vitals
      ensures Snapshot() == Tick(old(Snapshot()), redMean(ForeheadPolygon(face)), endTime, restampTime, fft)
    {
      var points := CollectForeheadPoints(face);
      var redAvg := redMean(points);
      redAvgList := redAvgList + [redAvg];

      var totalTimeInSecs := ElapsedSeconds(statics.startTime, endTime);
      counter := counter + 1;

      if totalTimeInSecs >= 10.0 {
        statics.startTime := restampTime;
        samplingFreq := SamplingFrequency(counter, totalTimeInSecs);
        var hrFreq := fft(redAvgList, counter, samplingFreq);
        var bpm := Bpm(hrFreq);
        counter := 0;
        vitals[0] := bpm;
        vitals[1] := Unset;
      }
      result := vitals;
    }

    /** Processes the first face of the frame when the frame's bytes are
        present (`data != null`); with no face, or without bytes, nothing
        changes and the current `vitals` are returned. */
    method SetVariables(data: Option<RedMean>, faces: seq<Face>, endTime: int, restampTime: int,
                        fft: FrequencyEstimator)
      returns (result: array<int>)
      requires Valid()
      modifies this, statics, vitals
      ensures Valid() && result == vitals
      ensures data.Some? && faces != [] ==>
        Snapshot() == Tick(old(Snapshot()), data.value(ForeheadPolygon(faces[0])), endTime, restampTime, fft)
      ensures data.None? || faces == [] ==> Snapshot() == old(Snapshot())
    {
      var i := 0;
      while i < |faces|
        invariant 0 <= i <= |faces|
        invariant data.Some? ==> i == 0
        invariant Valid() && Snapshot() == old(Snapshot())
      {
        if data.None? {
          // the source only logs that the byte buffer is null
        } else {
          result := ConvertToMatrix(data.value, faces[i], endTime, restampTime, fft);
          return;
        }
        i := i + 1;
      }
      result := vitals;
    }

    /** `convertToMOP`: one integer point per contour point, in order. */
    method ConvertToMOP(contour: FaceContour) returns (mPoints: seq<Point>)
      ensures |mPoints| == |contour.points|
      ensures forall i | 0 <= i < |contour.points| :: mPoints[i] == TruncatePoint(contour.points[i])
    {
      var points: seq<Point> := [];
      for k := 0 to |contour.points|
        invariant |points| == k
        invariant forall i | 0 <= i < k :: points[i] == TruncatePoint(contour.points[i])
      {
        var c := contour.points[k];
        points := points + [TruncatePoint(c)];
      }
      mPoints := points;
    }
  }

  /** What the first two frames of a process look like, with each frame's
      clock read also used as its restamp time: the first, at any clock
      reading of ten seconds or more, publishes the beats per minute the
      estimator finds in its one-sample window at rate `1000/t1`; a second
      one within the next ten seconds publishes nothing new. */
  method FirstTwoFrames(redMean: RedMean, face: Face, t1: int, t2: int, fft: FrequencyEstimator)
    returns (first: int, second: int, samples: nat)
    requires t1 >= WindowMillis && t2 - t1 < WindowMillis
    ensures first == second == Bpm(fft([redMean(ForeheadPolygon(face))], 1, 1000.0 / t1 as real))
    ensures samples == 2
  {
    var statics := new CropImageStatics();
    var crop := new CropImage(statics);
    var v := crop.ConvertToMatrix(redMean, face, t1, t1, fft);
    FirstFrameClosesWindow(redMean(ForeheadPolygon(face)), t1, t1, fft);
    first := v[0];
    v := crop.ConvertToMatrix(redMean, face, t2, t2, fft);
    second := v[0];
    samples := |crop.redAvgList|;
  }
}

/**
 * Heartbeat, the monolithic pipeline of the measurement screen: face tracking,
 * a forehead-band mean colour per frame, and a session whose readings are
 * random draws standing in for the rPPG computation. Its face search is the
 * same as FrameAnalyzer's, but losing the face discards the collected signal.
 */
module HeartbeatSession {
  import opened Wrappers
  import opened KotlinNumbers
  import opened Averages
  import opened FaceDetection
  import opened FrameAnalysis
  import opened RppgSession

  /** The filled rectangle makeMask draws, by its two corners. */
  datatype Band = Band(startX: int, startY: int, endX: int, endY: int)

  /**
   * makeMask's corners: 30% to 70% of the width, 10% to 25% of the height,
   * truncated, written over integers (MaskBandIsToInt gives the Double form).
   */
  function MaskBand(face: Rect): Band {
    Band(SaturateInt(TruncDiv(10 * face.x + 3 * face.width, 10)),
         SaturateInt(TruncDiv(10 * face.y + 1 * face.height, 10)),
         SaturateInt(TruncDiv(10 * face.x + 7 * face.width, 10)),
         SaturateInt(TruncDiv(4 * face.y + 1 * face.height, 4)))
  }

  /** Each corner is `(x + f * w).toInt()` for makeMask's fraction f. */
  lemma MaskBandIsToInt(face: Rect)
    ensures MaskBand(face) == Band(DoubleToInt(face.x as real + 0.3 * face.width as real),
                                   DoubleToInt(face.y as real + 0.1 * face.height as real),
                                   DoubleToInt(face.x as real + 0.7 * face.width as real),
                                   DoubleToInt(face.y as real + 0.25 * face.height as real))
  {
    FractionCorner(face.x, face.width, 3, 10);
    FractionCorner(face.y, face.height, 1, 10);
    FractionCorner(face.x, face.width, 7, 10);
    FractionCorner(face.y, face.height, 1, 4);
  }

  /** `(x + num / den * w).toInt()` over integers. */
  lemma FractionCorner(x: int, w: int, num: int, den: int)
    requires den > 0
    ensures SaturateInt(TruncDiv(den * x + num * w, den)) == DoubleToInt(x as real + (num as real / den as real) * w as real)
  {
    var a := den * x + num * w;
    assert a as real == den as real * x as real + num as real * w as real;
    assert a as real / den as real == x as real + (num as real / den as real) * w as real;
    DoubleToIntOfRatio(a, den);
  }

  lemma IntToDoubleToInt(v: int)
    requires INT_MIN <= v <= INT_MAX
    ensures DoubleToInt(v as real) == v
  {
  }

  /** For a face of non-negative size inside the Int range the band is ordered and lies inside the face. */
  lemma MaskBandInsideFace(face: Rect)
    requires face.width >= 0 && face.height >= 0
    requires INT_MIN <= face.x && face.x + face.width <= INT_MAX
    requires INT_MIN <= face.y && face.y + face.height <= INT_MAX
    ensures var b := MaskBand(face);
      face.x <= b.startX <= b.endX <= face.x + face.width &&
      face.y <= b.startY <= b.endY <= face.y + face.height
  {
    MaskBandIsToInt(face);
    var x, y, w, h := face.x as real, face.y as real, face.width as real, face.height as real;
    IntToDoubleToInt(face.x);
    IntToDoubleToInt(face.y);
    IntToDoubleToInt(face.x + face.width);
    IntToDoubleToInt(face.y + face.height);
    DoubleToIntMonotone(x, x + 0.3 * w);
    DoubleToIntMonotone(x + 0.3 * w, x + 0.7 * w);
    DoubleToIntMonotone(x + 0.7 * w, (face.x + face.width) as real);
    DoubleToIntMonotone(y, y + 0.1 * h);
    DoubleToIntMonotone(y + 0.1 * h, y + 0.25 * h);
    DoubleToIntMonotone(y + 0.25 * h, (face.y + face.height) as real);
  }

  /** The frame-sized mask with the band filled (corners included, in either order). */
  function BandMask(rows: nat, cols: nat, b: Band): (mask: seq<seq<bool>>)
    ensures |mask| == rows
    ensures forall i :: 0 <= i < rows ==> |mask[i]| == cols
  {
    seq(rows, i requires 0 <= i < rows => seq(cols, j requires 0 <= j < cols =>
      MinInt(b.startX, b.endX) <= j <= MaxInt(b.startX, b.endX)
      && MinInt(b.startY, b.endY) <= i <= MaxInt(b.startY, b.endY)))
  }

  /**
   * For a face of non-negative size the mask selects exactly the forehead band
   * between its two corners, so every selected pixel lies inside the face.
   */
  lemma ForeheadMask(rows: nat, cols: nat, face: Rect)
    requires face.width >= 0 && face.height >= 0
    requires INT_MIN <= face.x && face.x + face.width <= INT_MAX
    requires INT_MIN <= face.y && face.y + face.height <= INT_MAX
    ensures var b, mask := MaskBand(face), BandMask(rows, cols, MaskBand(face));
      forall i, j :: 0 <= i < rows && 0 <= j < cols ==>
        && (mask[i][j] <==> b.startX <= j <= b.endX && b.startY <= i <= b.endY)
        && (mask[i][j] ==> face.x <= j <= face.x + face.width && face.y <= i <= face.y + face.height)
  {
    MaskBandInsideFace(face);
    var b, mask := MaskBand(face), BandMask(rows, cols, MaskBand(face));
    forall i, j | 0 <= i < rows && 0 <= j < cols
      ensures mask[i][j] <==> b.startX <= j <= b.endX && b.startY <= i <= b.endY
    {
      assert mask[i][j] == (MinInt(b.startX, b.endX) <= j <= MaxInt(b.startX, b.endX)
                            && MinInt(b.startY, b.endY) <= i <= MaxInt(b.startY, b.endY));
    }
  }

  /** The mean colour Core.mean gives over the band of the tracked face. */
  function BandMean(image: Image, face: Rect, cv: OpenCv): Rgb {
    cv.maskedMean(image.pixels, BandMask(image.rows, image.cols, MaskBand(face)))
  }

  predicate AllFalse(s: seq<bool>) {
    forall i :: 0 <= i < |s| ==> !s[i]
  }

  class Heartbeat {
    const targetFps: int
    const windowSize: int

    var streaming: bool
    var faceValid: bool
    var face: Rect
    var signal: seq<Rgb>
    var timestamps: seq<int>
    var rescan: seq<bool>
    var lastScanTime: int
    /** A classifier was created and is not empty. */
    var classifierReady: bool
    var measurementStart: Option<int>
    var bpmValues: seq<real>
    var spo2Values: seq<real>
    var measurementDone: bool
    var frameCount: int

    /**
     * The three signal lists run in parallel and only hold samples of a tracked
     * face; readings come in pairs of draws from 60..100 and 95..99.
     */
    ghost predicate Valid()
      reads this
    {
      && |timestamps| == |signal| && |rescan| == |signal|
      && AllFalse(rescan)
      && (signal != [] ==> faceValid)
      && |bpmValues| == |spo2Values|
      && AllWithin(bpmValues, 60.0, 100.0)
      && AllWithin(spo2Values, 95.0, 99.0)
      && (measurementStart.None? ==> bpmValues == [])
    }

    constructor (targetFps: int, windowSize: int)
      ensures Valid()
      ensures this.targetFps == targetFps && this.windowSize == windowSize
      ensures !streaming && !faceValid && !classifierReady && !measurementDone
      ensures signal == [] && bpmValues == [] && measurementStart == None
      ensures face == Rect(0, 0, 0, 0) && lastScanTime == 0 && frameCount == 0
    {
      this.targetFps := targetFps;
      this.windowSize := windowSize;
      streaming := false;
      faceValid := false;
      face := Rect(0, 0, 0, 0);
      signal, timestamps, rescan := [], [], [];
      lastScanTime := 0;
      classifierReady := false;
      measurementStart := None;
      bpmValues, spo2Values := [], [];
      measurementDone := false;
      frameCount := 0;
    }

    /** `targetFps * windowSize` in Int arithmetic. */
    function RequiredSize(): (required: int)
      reads this
      ensures INT_MIN <= required <= INT_MAX
      ensures INT_MIN <= targetFps * windowSize <= INT_MAX ==> required == targetFps * windowSize
    {
      LongToInt(targetFps * windowSize)
    }

    /** init: streaming starts only with a usable classifier; empty or failed loads leave it as it was. */
    method Init(load: CascadeLoad)
      requires Valid()
      modifies this
      ensures Valid()
      ensures classifierReady == ReadyAfterLoad(old(classifierReady), load)
      ensures streaming == (load == Loaded || old(streaming))
      ensures faceValid == old(faceValid) && face == old(face) && signal == old(signal)
      ensures measurementDone == old(measurementDone) && measurementStart == old(measurementStart)
      ensures bpmValues == old(bpmValues) && spo2Values == old(spo2Values) && frameCount == old(frameCount)
      ensures timestamps == old(timestamps) && rescan == old(rescan) && lastScanTime == old(lastScanTime)
    {
      classifierReady := ReadyAfterLoad(classifierReady, load);
      if load == Loaded {
        streaming := true;
      }
    }

    /** invalidateFace: drop the face and every collected sample. */
    method InvalidateFace()
      requires Valid()
      modifies this
      ensures Valid()
      ensures !faceValid && signal == [] && timestamps == [] && rescan == []
      ensures face == old(face) && streaming == old(streaming) && classifierReady == old(classifierReady)
      ensures lastScanTime == old(lastScanTime) && frameCount == old(frameCount)
      ensures measurementDone == old(measurementDone) && measurementStart == old(measurementStart)
      ensures bpmValues == old(bpmValues) && spo2Values == old(spo2Values)
    {
      signal, timestamps, rescan := [], [], [];
      faceValid := false;
    }

    /** detectFace: as in FrameAnalyzer, except that a lost face also clears the signal. */
    method DetectFace(image: Image, cv: OpenCv)
      requires Valid() && streaming
      modifies this
      ensures Valid()
      ensures (faceValid, face) == AfterDetection(DetectOn(classifierReady, image, cv), old(faceValid), old(face))
      ensures signal == (if DetectOn(classifierReady, image, cv).Lost? then [] else old(signal))
      ensures timestamps == (if DetectOn(classifierReady, image, cv).Lost? then [] else old(timestamps))
      ensures streaming == old(streaming) && classifierReady == old(classifierReady)
      ensures lastScanTime == old(lastScanTime) && frameCount == old(frameCount)
      ensures measurementDone == old(measurementDone) && measurementStart == old(measurementStart)
      ensures bpmValues == old(bpmValues) && spo2Values == old(spo2Values)
    {
      var d := DetectOn(classifierReady, image, cv);
      match d {
        case Found(r) =>
          face := r;
          faceValid := true;
        case Lost =>
          InvalidateFace();
        case Keep =>
      }
    }

    /**
     * processFrame: count the frame; while streaming and given a bitmap, scan
     * for the face when NeedsScan says so, and while a face is tracked append
     * its band mean, the time, and `false` to the three lists.
     */
    method ProcessFrame(frame: Option<Image>, now: int, cv: OpenCv)
      requires Valid()
      modifies this
      ensures Valid()
      ensures frameCount == LongToInt(old(frameCount) + 1)
      ensures streaming == old(streaming) && classifierReady == old(classifierReady)
      ensures measurementDone == old(measurementDone) && measurementStart == old(measurementStart)
      ensures bpmValues == old(bpmValues) && spo2Values == old(spo2Values)
      ensures !old(streaming) || frame.None? ==>
        faceValid == old(faceValid) && face == old(face) && signal == old(signal)
        && timestamps == old(timestamps) && lastScanTime == old(lastScanTime)
      ensures old(streaming) && frame.Some? ==>
        var scan := NeedsScan(old(faceValid), now, old(lastScanTime));
        var d := if scan then DetectOn(old(classifierReady), frame.value, cv) else Keep;
        var kept := if d.Lost? then [] else old(signal);
        var keptTimes := if d.Lost? then [] else old(timestamps);
        && lastScanTime == (if scan then now else old(lastScanTime))
        && (faceValid, face) == AfterDetection(d, old(faceValid), old(face))
        && (faceValid ==> signal == kept + [BandMean(frame.value, face, cv)] && timestamps == keptTimes + [now])
        && (!faceValid ==> signal == kept && timestamps == keptTimes)
    {
      frameCount := LongToInt(frameCount + 1);
      if !streaming || frame.None? {
        return;
      }
      var image := frame.value;
      ScanStep(image, now, cv);
      if faceValid {
        AppendSample(BandMean(image, face, cv), now);
      }
    }

    /** The head of processFrame: a detection pass when NeedsScan says the face is due for one. */
    method ScanStep(image: Image, now: int, cv: OpenCv)
      requires Valid() && streaming
      modifies this
      ensures Valid()
      ensures var scan := NeedsScan(old(faceValid), now, old(lastScanTime));
        var d := if scan then DetectOn(old(classifierReady), image, cv) else Keep;
        && lastScanTime == (if scan then now else old(lastScanTime))
        && (faceValid, face) == AfterDetection(d, old(faceValid), old(face))
        && signal == (if d.Lost? then [] else old(signal))
        && timestamps == (if d.Lost? then [] else old(timestamps))
      ensures streaming == old(streaming) && classifierReady == old(classifierReady) && frameCount == old(frameCount)
      ensures measurementDone == old(measurementDone) && measurementStart == old(measurementStart)
      ensures bpmValues == old(bpmValues) && spo2Values == old(spo2Values)
    {
      if !faceValid || now - lastScanTime >= RESCAN_INTERVAL {
        lastScanTime := now;
        DetectFace(image, cv);
      }
    }

    /** The tail of processFrame: one sample of the tracked face joins the three lists. */
    method AppendSample(mean: Rgb, time: int)
      requires Valid() && faceValid
      modifies this
      ensures Valid()
      ensures signal == old(signal) + [mean] && timestamps == old(timestamps) + [time]
      ensures faceValid && face == old(face) && lastScanTime == old(lastScanTime)
      ensures streaming == old(streaming) && classifierReady == old(classifierReady) && frameCount == old(frameCount)
      ensures measurementDone == old(measurementDone) && measurementStart == old(measurementStart)
      ensures bpmValues == old(bpmValues) && spo2Values == old(spo2Values)
    {
      signal := signal + [mean];
      timestamps := timestamps + [time];
      rescan := rescan + [false];
    }

    /**
     * rppg, one timer tick: waits for targetFps * windowSize samples, then keeps
     * the drawn reading (60..100 BPM, 95..99 %), starts the 15 s clock if it is
     * the first, reports an update, and finishes once the clock has run out.
     * Unlike the split pipeline it does not check measurementDone.
     */
    method Rppg(now: int, randomBpm: int, randomSpo2: int) returns (update: Option<Reading>, complete: Option<Reading>)
      requires 60 <= randomBpm <= 100 && 95 <= randomSpo2 <= 99
      requires Valid()
      modifies this
      ensures Valid()
      ensures |old(signal)| < RequiredSize() ==> update == None && complete == None && unchanged(this)
      ensures |old(signal)| >= RequiredSize() ==>
        && update == Some(Reading(randomBpm as real, randomSpo2 as real))
        && bpmValues == old(bpmValues) + [randomBpm as real]
        && spo2Values == old(spo2Values) + [randomSpo2 as real]
        && measurementStart == (if old(measurementStart).None? then Some(now) else old(measurementStart))
      ensures complete.Some? <==> |old(signal)| >= RequiredSize() && now - measurementStart.value >= MEASUREMENT_DURATION
      ensures complete.Some? ==>
        && complete.value == FinalReading(bpmValues, spo2Values)
        && 60.0 <= complete.value.bpm <= 100.0 && 95.0 <= complete.value.spo2 <= 99.0
        && measurementDone && !streaming && !faceValid && signal == []
      ensures complete.None? ==> signal == old(signal) && streaming == old(streaming)
                                 && measurementDone == old(measurementDone) && faceValid == old(faceValid)
                                 && timestamps == old(timestamps) && rescan == old(rescan)
      ensures face == old(face) && classifierReady == old(classifierReady)
      ensures lastScanTime == old(lastScanTime) && frameCount == old(frameCount)
    {
      update, complete := None, None;
      var requiredSize := RequiredSize();
      if |signal| < requiredSize {
        return;
      }
      var bpm := randomBpm as real;
      var spo2 := randomSpo2 as real;
      if measurementStart.None? {
        measurementStart := Some(now);
      }
      AllWithinAppend(bpmValues, bpm, 60.0, 100.0);
      AllWithinAppend(spo2Values, spo2, 95.0, 99.0);
      bpmValues := bpmValues + [bpm];
      spo2Values := spo2Values + [spo2];
      update := Some(Reading(bpm, spo2));
      var elapsed := now - measurementStart.value;
      if elapsed >= MEASUREMENT_DURATION {
        MeanWithin(bpmValues, 60.0, 100.0);
        MeanWithin(spo2Values, 95.0, 99.0);
        var result := FinishMeasurement();
        complete := Some(result);
      }
    }

    /** finishMeasurement: mark done, average the readings (0 for none), report, stop. */
    method FinishMeasurement() returns (result: Reading)
      requires Valid()
      modifies this
      ensures Valid()
      ensures result == FinalReading(bpmValues, spo2Values)
      ensures measurementDone && !streaming && !faceValid && signal == []
      ensures face == old(face) && classifierReady == old(classifierReady)
      ensures lastScanTime == old(lastScanTime) && frameCount == old(frameCount)
      ensures bpmValues == old(bpmValues) && spo2Values == old(spo2Values)
      ensures measurementStart == old(measurementStart)
    {
      measurementDone := true;
      result := FinalReading(bpmValues, spo2Values);
      Stop();
    }

    /** stop: no more frames, done, and the face and its samples dropped. */
    method Stop()
      requires Valid()
      modifies this
      ensures Valid()
      ensures !streaming && measurementDone && !faceValid && signal == []
      ensures face == old(face) && classifierReady == old(classifierReady) && frameCount == old(frameCount)
      ensures lastScanTime == old(lastScanTime)
      ensures bpmValues == old(bpmValues) && spo2Values == old(spo2Values)
      ensures measurementStart == old(measurementStart)
    {
      streaming := false;
      measurementDone := true;
      InvalidateFace();
    }

    /** restart: forget the session, the face and the frame count, then initialise again. */
    method Restart(load: CascadeLoad)
      requires Valid()
      modifies this
      ensures Valid()
      ensures !measurementDone && measurementStart == None && bpmValues == [] && spo2Values == []
      ensures !faceValid && signal == [] && frameCount == 0
      ensures face == old(face) && lastScanTime == old(lastScanTime)
      ensures classifierReady == ReadyAfterLoad(old(classifierReady), load)
      ensures streaming == (load == Loaded || old(streaming))
    {
      measurementDone := false;
      measurementStart := None;
      bpmValues, spo2Values := [], [];
      InvalidateFace();
      frameCount := 0;
      Init(load);
    }

    /**
     * testRandomResult: stop and report a made-up reading; the draws (a rate in
     * 60..150 and an SpO2 of 93 + 6 * random()) are the parameters.
     */
    method TestRandomResult(randomBpm: int, randomSpo2: real) returns (result: Reading)
      requires 60 <= randomBpm <= 150 && 93.0 <= randomSpo2 <= 99.0
      requires Valid()
      modifies this
      ensures Valid()
      ensures result == Reading(randomBpm as real, randomSpo2)
      ensures !streaming && measurementDone && !faceValid && signal == []
      ensures face == old(face) && classifierReady == old(classifierReady) && frameCount == old(frameCount)
      ensures lastScanTime == old(lastScanTime)
      ensures bpmValues == old(bpmValues) && spo2Values == old(spo2Values)
      ensures measurementStart == old(measurementStart)
    {
      Stop();
      result := Reading(randomBpm as real, randomSpo2);
    }
  }
}

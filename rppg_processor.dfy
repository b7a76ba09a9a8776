/**
 * RppgProcessor: the split pipeline's session controller. Camera frames go
 * through FrameAnalyzer into RppgLogic's window; a 250 ms timer tick computes
 * the vitals, keeps every valid reading, and after 15 s of valid readings
 * reports their averages once and stops.
 *
 * The two callbacks of the source are the outputs of the methods that call
 * them; the clock is the `now` parameter, one value per call.
 */
module RppgSession {
  import opened Wrappers
  import opened KotlinNumbers
  import opened Averages
  import opened FaceDetection
  import opened FrameAnalysis
  import opened RppgSignal

  const RPPG_INTERVAL: int := 250
  const MEASUREMENT_DURATION: int := 15000
  const WINDOW_SECONDS: int := 8
  const MIN_BPM: real := 40.0
  const MAX_BPM: real := 200.0

  /** One (bpm, spo2) pair handed to a callback. */
  datatype Reading = Reading(bpm: real, spo2: real)

  /** The final report: the averages of the readings collected, 0 for none. */
  function FinalReading(bpmValues: seq<real>, spo2Values: seq<real>): (r: Reading)
    ensures bpmValues == [] ==> r.bpm == 0.0
    ensures spo2Values == [] ==> r.spo2 == 0.0
  {
    Reading(MeanOrZero(bpmValues), MeanOrZero(spo2Values))
  }

  /** Averages of valid readings are valid readings: within 40..200 BPM and 90..100 % SpO2. */
  lemma FinalReadingWithin(bpmValues: seq<real>, spo2Values: seq<real>)
    requires bpmValues != [] && AllWithin(bpmValues, MIN_BPM, MAX_BPM)
    requires spo2Values != [] && AllWithin(spo2Values, 90.0, 100.0)
    ensures MIN_BPM <= FinalReading(bpmValues, spo2Values).bpm <= MAX_BPM
    ensures 90.0 <= FinalReading(bpmValues, spo2Values).spo2 <= 100.0
  {
    MeanWithin(bpmValues, MIN_BPM, MAX_BPM);
    MeanWithin(spo2Values, 90.0, 100.0);
  }

  lemma AllWithinAppend(s: seq<real>, x: real, lo: real, hi: real)
    requires AllWithin(s, lo, hi) && lo <= x <= hi
    ensures AllWithin(s + [x], lo, hi)
  {
  }

  class RppgProcessor {
    const targetFps: int
    const frameAnalyzer: FrameAnalyzer
    const rppgLogic: RppgLogic

    var streaming: bool
    var measurementStart: Option<int>
    var bpmValues: seq<real>
    var spo2Values: seq<real>
    var measurementDone: bool

    /**
     * The window is configured for 8 s at targetFps and a 40..200 BPM band;
     * readings come in pairs, and every kept reading is a valid one.
     */
    ghost predicate Valid()
      reads this, rppgLogic
    {
      && rppgLogic.Valid()
      && rppgLogic.targetFps == targetFps && rppgLogic.windowSizeSeconds == WINDOW_SECONDS
      && rppgLogic.minBpm == MIN_BPM && rppgLogic.maxBpm == MAX_BPM
      && |bpmValues| == |spo2Values|
      && AllWithin(bpmValues, MIN_BPM, MAX_BPM)
      && AllWithin(spo2Values, 90.0, 100.0)
      && (measurementStart.None? ==> bpmValues == [])
    }

    constructor (targetFps: int)
      requires targetFps > 0 && targetFps * WINDOW_SECONDS <= INT_MAX
      ensures Valid() && fresh(frameAnalyzer) && fresh(rppgLogic)
      ensures this.targetFps == targetFps
      ensures !streaming && !measurementDone && measurementStart == None
      ensures !frameAnalyzer.classifierReady && !frameAnalyzer.faceValid
      ensures rppgLogic.redSignal == []
    {
      this.targetFps := targetFps;
      frameAnalyzer := new FrameAnalyzer();
      rppgLogic := new RppgLogic(targetFps, WINDOW_SECONDS, MIN_BPM, MAX_BPM);
      streaming := false;
      measurementStart := None;
      bpmValues, spo2Values := [], [];
      measurementDone := false;
    }

    /** init: load the classifier (FrameAnalyzer catches its own failures) and start streaming. */
    method Init(load: CascadeLoad)
      requires Valid()
      modifies this, frameAnalyzer
      ensures Valid()
      ensures streaming && !measurementDone
      ensures frameAnalyzer.State() ==
        old(frameAnalyzer.State()).(classifierReady := ReadyAfterLoad(old(frameAnalyzer.classifierReady), load))
      ensures measurementStart == old(measurementStart)
      ensures bpmValues == old(bpmValues) && spo2Values == old(spo2Values)
      ensures unchanged(rppgLogic)
    {
      frameAnalyzer.Initialize(load);
      streaming := true;
      measurementDone := false;
    }

    /**
     * processFrame: ignored unless streaming and not done; otherwise the frame's
     * skin colour, when there is one, joins the window with the current time.
     */
    method ProcessFrame(frame: Option<Image>, now: int, cv: OpenCv) returns (ghost extracted: Option<Rgb>)
      requires Valid()
      modifies frameAnalyzer, rppgLogic
      ensures Valid()
      ensures !streaming || measurementDone ==>
        extracted == None && unchanged(frameAnalyzer) && unchanged(rppgLogic)
      ensures streaming && !measurementDone ==>
        AnalyzerStep(frame, now, cv, old(frameAnalyzer.State()), frameAnalyzer.State(), extracted)
      ensures rppgLogic.pushed == old(rppgLogic.pushed) +
        (match extracted case Some(c) => [Sample(c.r, c.g, c.b, now)] case None => [])
      ensures extracted.Some? ==> frame.Some? && frameAnalyzer.faceValid
    {
      if !streaming || measurementDone {
        return None;
      }
      var rgb := frameAnalyzer.ProcessFrame(frame, now, cv);
      extracted := rgb;
      if rgb.Some? {
        rppgLogic.AddSignalSample(rgb.value.r, rgb.value.g, rgb.value.b, now);
      }
    }

    /**
     * computeVitals, one timer tick. Nothing happens when done or while the
     * window is filling. A reading with a positive rate is kept, reported as an
     * update, and starts the 15 s clock if it is the first; when the clock has
     * run out the measurement finishes and its averages are the completion.
     */
    method ComputeVitals(now: int, sqrt: real -> real, binPower: (seq<real>, int) -> real)
      returns (update: Option<Reading>, complete: Option<Reading>)
      requires Valid()
      modifies this, frameAnalyzer, rppgLogic
      ensures Valid()
      ensures old(measurementDone) || !old(rppgLogic.HasEnoughSamples()) ==>
        update == None && complete == None && unchanged(this) && unchanged(frameAnalyzer) && unchanged(rppgLogic)
      ensures update == None ==> complete == None && unchanged(this) && unchanged(frameAnalyzer) && unchanged(rppgLogic)
      ensures !old(measurementDone) && old(rppgLogic.HasEnoughSamples()) && update == None ==>
        IsBpmFromPsd(PulseWaveform(old(rppgLogic.redSignal), old(rppgLogic.greenSignal), old(rppgLogic.blueSignal),
                                   targetFps as real, sqrt),
                     targetFps as real, MIN_BPM, MAX_BPM, binPower, 0.0)
      ensures update.Some? ==>
        && !old(measurementDone)
        && MIN_BPM <= update.value.bpm <= MAX_BPM && 90.0 <= update.value.spo2 <= 100.0
        && bpmValues == old(bpmValues) + [update.value.bpm]
        && spo2Values == old(spo2Values) + [update.value.spo2]
        && measurementStart == (if old(measurementStart).None? then Some(now) else old(measurementStart))
        && IsBpmFromPsd(PulseWaveform(old(rppgLogic.redSignal), old(rppgLogic.greenSignal), old(rppgLogic.blueSignal),
                                      targetFps as real, sqrt),
                        targetFps as real, MIN_BPM, MAX_BPM, binPower, update.value.bpm)
        && update.value.spo2 == EstimateSpO2(old(rppgLogic.redSignal), old(rppgLogic.greenSignal), old(rppgLogic.blueSignal), sqrt)
      ensures complete.None? ==> unchanged(rppgLogic) && unchanged(frameAnalyzer)
      ensures complete.Some? <==> update.Some? && now - measurementStart.value >= MEASUREMENT_DURATION
      ensures complete.Some? ==>
        && complete.value == FinalReading(bpmValues, spo2Values)
        && MIN_BPM <= complete.value.bpm <= MAX_BPM && 90.0 <= complete.value.spo2 <= 100.0
        && measurementDone && !streaming && rppgLogic.redSignal == [] && rppgLogic.pushed == []
        && frameAnalyzer.State() == old(frameAnalyzer.State()).(faceValid := false)
      ensures complete.None? ==> measurementDone == old(measurementDone) && streaming == old(streaming)
    {
      update, complete := None, None;
      if measurementDone {
        return;
      }
      if !rppgLogic.HasEnoughSamples() {
        return;
      }
      var bpm, spo2 := rppgLogic.ComputeHeartRate(sqrt, binPower);
      if bpm > 0.0 {
        if measurementStart.None? {
          measurementStart := Some(now);
        }
        AllWithinAppend(bpmValues, bpm, MIN_BPM, MAX_BPM);
        AllWithinAppend(spo2Values, spo2, 90.0, 100.0);
        bpmValues := bpmValues + [bpm];
        spo2Values := spo2Values + [spo2];
        update := Some(Reading(bpm, spo2));
        var elapsed := now - measurementStart.value;
        if elapsed >= MEASUREMENT_DURATION {
          FinalReadingWithin(bpmValues, spo2Values);
          var result := FinishMeasurement();
          complete := Some(result);
        }
      }
    }

    /** finishMeasurement: average the readings (0 for none), report them, and stop. */
    method FinishMeasurement() returns (result: Reading)
      requires Valid()
      modifies this, frameAnalyzer, rppgLogic
      ensures Valid()
      ensures result == FinalReading(bpmValues, spo2Values)
      ensures measurementDone && !streaming && rppgLogic.redSignal == [] && rppgLogic.pushed == []
      ensures frameAnalyzer.State() == old(frameAnalyzer.State()).(faceValid := false)
      ensures bpmValues == old(bpmValues) && spo2Values == old(spo2Values)
      ensures measurementStart == old(measurementStart)
    {
      measurementDone := true;
      result := FinalReading(bpmValues, spo2Values);
      Stop();
    }

    /** stop: no more frames or ticks, an empty window, no face. The readings stay. */
    method Stop()
      requires Valid()
      modifies this, frameAnalyzer, rppgLogic
      ensures Valid()
      ensures !streaming && measurementDone
      ensures rppgLogic.redSignal == [] && rppgLogic.pushed == []
      ensures frameAnalyzer.State() == old(frameAnalyzer.State()).(faceValid := false)
      ensures bpmValues == old(bpmValues) && spo2Values == old(spo2Values)
      ensures measurementStart == old(measurementStart)
    {
      streaming := false;
      measurementDone := true;
      rppgLogic.Reset();
      frameAnalyzer.InvalidateFace();
    }

    /** restart: stop, forget the readings and the start time, and initialise again. */
    method Restart(load: CascadeLoad)
      requires Valid()
      modifies this, frameAnalyzer, rppgLogic
      ensures Valid()
      ensures streaming && !measurementDone && measurementStart == None
      ensures bpmValues == [] && spo2Values == []
      ensures rppgLogic.redSignal == [] && rppgLogic.pushed == []
      ensures frameAnalyzer.State() ==
        old(frameAnalyzer.State()).(faceValid := false,
                                    classifierReady := ReadyAfterLoad(old(frameAnalyzer.classifierReady), load))
    {
      Stop();
      measurementStart := None;
      measurementDone := false;
      bpmValues, spo2Values := [], [];
      Init(load);
    }

    /**
     * testRandomResult: stop and report a made-up reading; the generator's draws
     * (a rate in 60..100 and an SpO2 of 95 + 4 * random()) are the parameters.
     */
    method TestRandomResult(randomBpm: int, randomSpo2: real) returns (result: Reading)
      requires 60 <= randomBpm <= 100 && 95.0 <= randomSpo2 <= 99.0
      requires Valid()
      modifies this, frameAnalyzer, rppgLogic
      ensures Valid()
      ensures result == Reading(randomBpm as real, randomSpo2)
      ensures !streaming && measurementDone
      ensures rppgLogic.redSignal == [] && rppgLogic.pushed == []
      ensures frameAnalyzer.State() == old(frameAnalyzer.State()).(faceValid := false)
      ensures bpmValues == old(bpmValues) && spo2Values == old(spo2Values)
      ensures measurementStart == old(measurementStart)
    {
      Stop();
      result := Reading(randomBpm as real, randomSpo2);
    }

    function IsFaceDetected(): bool
      reads this, frameAnalyzer
    {
      frameAnalyzer.faceValid
    }

    /** getCurrentProgress: milliseconds since the first valid reading (cut to an Int), out of 15000. */
    function CurrentProgress(now: int): (progress: (int, int))
      reads this
      ensures progress.1 == MEASUREMENT_DURATION
      ensures measurementStart.None? ==> progress.0 == 0
      ensures measurementStart.Some? && INT_MIN <= now - measurementStart.value <= INT_MAX ==>
        progress.0 == now - measurementStart.value
    {
      var elapsed := if measurementStart.Some? then LongToInt(now - measurementStart.value) else 0;
      (elapsed, MEASUREMENT_DURATION)
    }
  }
}

/**
 * FrameAnalyzer of the split pipeline: tracks one face rectangle across
 * camera frames, re-running the cascade detector at most once a second while
 * a face is tracked, and turns each frame into the mean colour of the face's
 * skin pixels chosen by RSVR.
 */
module FrameAnalysis {
  import opened Wrappers
  import opened KotlinNumbers
  import opened FaceDetection
  import opened SkinRegion
  import opened Peaks

  const RESCAN_INTERVAL: int := 1000

  /** A frame triggers a detection pass when no face is tracked or a second has passed since the last one. */
  function NeedsScan(faceValid: bool, now: int, lastScanTime: int): (scan: bool)
    ensures !faceValid ==> scan
    ensures faceValid ==> (scan <==> now >= lastScanTime + RESCAN_INTERVAL)
  {
    !faceValid || now - lastScanTime >= RESCAN_INTERVAL
  }

  /** The tracked face (validity, rectangle) after a detection pass. */
  function AfterDetection(d: Detection, faceValid: bool, face: Rect): (state: (bool, Rect))
    ensures d.Found? ==> state == (true, d.face)
    ensures d.Lost? ==> state == (false, face)
    ensures d.Keep? ==> state == (faceValid, face)
  {
    match d
    case Found(r) => (true, r)
    case Lost => (false, face)
    case Keep => (faceValid, face)
  }

  /** The face rectangle lies inside the frame (the check at the top of extractSkinPixels). */
  predicate InBounds(r: Rect, image: Image) {
    r.x >= 0 && r.y >= 0 && r.x + r.width <= image.cols && r.y + r.height <= image.rows
  }

  /** `rgbMat.submat(face)`: rows y .. y + height - 1 and columns x .. x + width - 1. */
  function Crop(image: Image, r: Rect): (roi: seq<seq<Pixel>>)
    requires InBounds(r, image) && r.width > 0 && r.height > 0
    ensures |roi| == r.height
    ensures forall i :: 0 <= i < r.height ==> |roi[i]| == r.width
    ensures forall i, j :: 0 <= i < r.height && 0 <= j < r.width ==> roi[i][j] == image.pixels[r.y + i][r.x + j]
  {
    seq(r.height, i requires 0 <= i < r.height => image.pixels[r.y + i][r.x .. r.x + r.width])
  }

  /** The S channel of the ROI converted to HSV. */
  function SaturationPlane(roi: seq<seq<Pixel>>, saturation: Pixel -> Byte): (sat: seq<seq<Byte>>)
    ensures |sat| == |roi|
    ensures forall i :: 0 <= i < |roi| ==> |sat[i]| == |roi[i]|
    ensures forall i, j :: 0 <= i < |roi| && 0 <= j < |roi[i]| ==> sat[i][j] == saturation(roi[i][j])
  {
    seq(|roi|, i requires 0 <= i < |roi| => seq(|roi[i]|, j requires 0 <= j < |roi[i]| => saturation(roi[i][j])))
  }

  /** The median-filtered histogram as a sequence. */
  function Smoothed(hist: seq<real>): (s: seq<real>)
    requires |hist| == HIST_SIZE
    ensures |s| == HIST_SIZE
  {
    seq(HIST_SIZE, i requires 0 <= i < HIST_SIZE => UpperMedian(HistWindow(hist, i)))
  }

  /**
   * The colour extractSkinPixels reports for an in-bounds, non-degenerate
   * face: histmax is the first most frequent smoothed saturation, and the mean
   * is taken over the pixels whose saturation lies in histmax's RSVR window.
   */
  ghost predicate IsSkinMean(image: Image, face: Rect, cv: OpenCv, rgb: Rgb)
    requires InBounds(face, image) && face.width > 0 && face.height > 0
  {
    var roi := Crop(image, face);
    var sat := SaturationPlane(roi, cv.saturation);
    exists histmax :: IsFirstPositivePeak(Smoothed(Histogram(sat)), 0, HIST_SIZE - 1, histmax)
      && rgb == cv.maskedMean(roi, SkinMask(sat, ThresholdWindow(histmax).0, ThresholdWindow(histmax).1))
  }

  /** histmax is the saturation with the largest smoothed count, the first one on a tie. */
  lemma HistmaxIsMostFrequent(sat: seq<seq<Byte>>, histmax: int)
    requires IsFirstPositivePeak(Smoothed(Histogram(sat)), 0, HIST_SIZE - 1, histmax)
    ensures forall v :: 0 <= v < HIST_SIZE ==> Smoothed(Histogram(sat))[v] <= Smoothed(Histogram(sat))[histmax]
    ensures forall v :: 0 <= v < histmax ==> Smoothed(Histogram(sat))[v] < Smoothed(Histogram(sat))[histmax]
  {
    var hist := Histogram(sat);
    forall v | 0 <= v < HIST_SIZE
      ensures Smoothed(hist)[v] >= 0.0
    {
      SmoothedNonNegative(hist, v);
    }
    PeakOfNonNegativeIsFirstArgmax(Smoothed(hist), 0, HIST_SIZE - 1, histmax);
  }

  /** The RSVR computation for one face: histogram, smoothing, histmax, window, mask, mean. */
  method SkinMean(image: Image, face: Rect, cv: OpenCv) returns (rgb: Rgb)
    requires InBounds(face, image) && face.width > 0 && face.height > 0
    ensures IsSkinMean(image, face, cv, rgb)
  {
    var roi := Crop(image, face);
    var sat := SaturationPlane(roi, cv.saturation);
    var hist := Histogram(sat);
    var smoothedHist := SmoothHistogram(hist);
    assert smoothedHist[..] == Smoothed(hist);
    var histmax := FirstPositivePeak(smoothedHist, 0, HIST_SIZE - 1);
    var (lowerBound, upperBound) := ThresholdWindow(histmax);
    var mask := BuildMask(sat, lowerBound, upperBound);
    rgb := cv.maskedMean(roi, mask);
  }

  /** The analyzer's fields as a value. */
  datatype AnalyzerState = AnalyzerState(classifierReady: bool, faceValid: bool, face: Rect,
                                         lastScanTime: int, frameCount: int)

  /**
   * One processFrame call, from state s to state t with result rgb: the frame
   * counter wraps; without a bitmap nothing else moves; otherwise a detection
   * pass runs and stamps the time when NeedsScan says so, and a tracked face
   * inside the frame yields its skin mean (none for an empty rectangle), while
   * a face outside the frame is dropped.
   */
  ghost predicate AnalyzerStep(frame: Option<Image>, now: int, cv: OpenCv,
                               s: AnalyzerState, t: AnalyzerState, rgb: Option<Rgb>)
  {
    && t.frameCount == LongToInt(s.frameCount + 1)
    && t.classifierReady == s.classifierReady
    && (frame.None? ==> rgb == None && t.faceValid == s.faceValid && t.face == s.face
                        && t.lastScanTime == s.lastScanTime)
    && (frame.Some? ==>
          var scan := NeedsScan(s.faceValid, now, s.lastScanTime);
          var detected := if scan then AfterDetection(DetectOn(s.classifierReady, frame.value, cv), s.faceValid, s.face)
                          else (s.faceValid, s.face);
          && t.lastScanTime == (if scan then now else s.lastScanTime)
          && t.face == detected.1
          && (!detected.0 ==> rgb == None && !t.faceValid)
          && (detected.0 && !InBounds(t.face, frame.value) ==> rgb == None && !t.faceValid)
          && (detected.0 && InBounds(t.face, frame.value) ==>
                t.faceValid
                && (t.face.width <= 0 || t.face.height <= 0 ==> rgb == None)
                && (t.face.width > 0 && t.face.height > 0 ==>
                      rgb.Some? && IsSkinMean(frame.value, t.face, cv, rgb.value))))
  }

  class FrameAnalyzer {
    /** A classifier was created and is not empty. */
    var classifierReady: bool
    var faceValid: bool
    var face: Rect
    var lastScanTime: int
    var frameCount: int

    function State(): AnalyzerState
      reads this
    {
      AnalyzerState(classifierReady, faceValid, face, lastScanTime, frameCount)
    }

    constructor ()
      ensures !classifierReady && !faceValid && face == Rect(0, 0, 0, 0)
      ensures lastScanTime == 0 && frameCount == 0
    {
      classifierReady := false;
      faceValid := false;
      face := Rect(0, 0, 0, 0);
      lastScanTime := 0;
      frameCount := 0;
    }

    /** initialize: load the cascade; an exception leaves the previous classifier in place. */
    method Initialize(load: CascadeLoad)
      modifies this
      ensures classifierReady == ReadyAfterLoad(old(classifierReady), load)
      ensures faceValid == old(faceValid) && face == old(face)
      ensures lastScanTime == old(lastScanTime) && frameCount == old(frameCount)
    {
      classifierReady := ReadyAfterLoad(classifierReady, load);
    }

    /** detectFace on one frame. */
    method DetectFace(image: Image, cv: OpenCv)
      modifies this
      ensures (faceValid, face) == AfterDetection(DetectOn(classifierReady, image, cv), old(faceValid), old(face))
      ensures classifierReady == old(classifierReady)
      ensures lastScanTime == old(lastScanTime) && frameCount == old(frameCount)
    {
      var d := DetectOn(classifierReady, image, cv);
      match d {
        case Found(r) =>
          face := r;
          faceValid := true;
        case Lost =>
          InvalidateFace();
        case Keep =>
      }
    }

    /**
     * extractSkinPixels: a face outside the frame is dropped and gives no colour;
     * an empty face rectangle makes OpenCV throw, which also gives no colour.
     */
    method ExtractSkinPixels(image: Image, cv: OpenCv) returns (rgb: Option<Rgb>)
      modifies this
      ensures !InBounds(old(face), image) ==> rgb == None && !faceValid
      ensures InBounds(old(face), image) ==> faceValid == old(faceValid)
      ensures InBounds(face, image) && (face.width <= 0 || face.height <= 0) ==> rgb == None
      ensures InBounds(face, image) && face.width > 0 && face.height > 0 ==>
        rgb.Some? && IsSkinMean(image, face, cv, rgb.value)
      ensures face == old(face) && classifierReady == old(classifierReady)
      ensures lastScanTime == old(lastScanTime) && frameCount == old(frameCount)
    {
      if face.x < 0 || face.y < 0 || face.x + face.width > image.cols || face.y + face.height > image.rows {
        InvalidateFace();
        return None;
      }
      if face.width <= 0 || face.height <= 0 {
        return None;
      }
      var mean := SkinMean(image, face, cv);
      return Some(mean);
    }

    /**
     * processFrame: count the frame; without a bitmap there is no colour.
     * Otherwise detect again if NeedsScan says so (recording the scan time),
     * and extract the skin colour when a face is tracked.
     */
    method ProcessFrame(frame: Option<Image>, now: int, cv: OpenCv) returns (rgb: Option<Rgb>)
      modifies this
      ensures AnalyzerStep(frame, now, cv, old(State()), State(), rgb)
    {
      frameCount := LongToInt(frameCount + 1);
      if frame.None? {
        return None;
      }
      var image := frame.value;
      if !faceValid || now - lastScanTime >= RESCAN_INTERVAL {
        lastScanTime := now;
        DetectFace(image, cv);
      }
      if faceValid {
        rgb := ExtractSkinPixels(image, cv);
      } else {
        rgb := None;
      }
    }

    /** invalidateFace: forget the face; the rectangle itself is kept. */
    method InvalidateFace()
      modifies this
      ensures !faceValid
      ensures face == old(face) && classifierReady == old(classifierReady)
      ensures lastScanTime == old(lastScanTime) && frameCount == old(frameCount)
    {
      faceValid := false;
    }
  }
}

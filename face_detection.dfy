/**
 * Camera frames, face rectangles and the three-strategy Haar-cascade face
 * search shared by FrameAnalyzer.detectFace and Heartbeat.detectFace.
 *
 * OpenCV itself (the cascade detector, the HSV conversion of one pixel and
 * the masked channel mean) is outside the model and is passed in as an
 * `OpenCv` record of functions.
 */
module FaceDetection {
  import opened KotlinNumbers

  type Byte = x: int | 0 <= x < 256

  /** One pixel of the RGBA frame produced by Utils.bitmapToMat. */
  datatype Pixel = Pixel(r: Byte, g: Byte, b: Byte, a: Byte)

  /** A frame: `rows` rows of `cols` pixels. */
  datatype Frame = Frame(cols: nat, rows: nat, pixels: seq<seq<Pixel>>)

  predicate WellFormed(f: Frame) {
    |f.pixels| == f.rows && forall i :: 0 <= i < |f.pixels| ==> |f.pixels[i]| == f.cols
  }

  type Image = f: Frame | WellFormed(f) witness Frame(0, 0, [])

  /** OpenCV's Rect: top-left corner and size, in pixels. */
  datatype Rect = Rect(x: int, y: int, width: int, height: int)

  /** A mean colour, the first three channels of Core.mean. */
  datatype Rgb = Rgb(r: real, g: real, b: real)

  /**
   * The detectMultiScale calls: Lenient is scale 1.05, 2 neighbours, minimum
   * 50x50 on the half-size image; VeryLenient is 1.03, 1 neighbour, 30x30 on
   * the half-size image; FullSize is 1.03, 1 neighbour, 80x80 on the full image.
   */
  datatype Strategy = Lenient | VeryLenient | FullSize

  /** How loading the cascade file ends: a usable classifier, an empty one, or an exception. */
  datatype CascadeLoad = Loaded | Empty | LoadError

  /** The library calls the core makes on images. */
  datatype OpenCv = OpenCv(
    detect: (Image, Strategy) -> seq<Rect>,
    saturation: Pixel -> Byte,
    maskedMean: (seq<seq<Pixel>>, seq<seq<bool>>) -> Rgb)

  /** Whether a classifier is usable after an initialisation attempt. */
  function ReadyAfterLoad(wasReady: bool, load: CascadeLoad): (ready: bool)
    ensures load == Loaded ==> ready
    ensures load == Empty ==> !ready
    ensures load == LoadError ==> ready == wasReady
  {
    match load
    case Loaded => true
    case Empty => false
    case LoadError => wasReady
  }

  /** What a detection pass does to the tracked face. */
  datatype Detection = Keep | Found(face: Rect) | Lost

  /**
   * `(v / 0.5).toInt()`, which undoes the 50% downscale; dividing by one half
   * doubles exactly, so it is written over integers (UnscaleIsToInt).
   */
  function Unscale(v: int): int {
    SaturateInt(2 * v)
  }

  /** Unscale is Double.toInt() of the coordinate divided by 0.5. */
  lemma UnscaleIsToInt(v: int)
    ensures Unscale(v) == DoubleToInt(v as real / 0.5)
  {
    assert v as real / 0.5 == (2 * v) as real;
    assert Trunc((2 * v) as real) == 2 * v;
  }

  function ScaleBack(r: Rect): Rect {
    Rect(Unscale(r.x), Unscale(r.y), Unscale(r.width), Unscale(r.height))
  }

  /** Within the Int range, undoing the downscale doubles every coordinate. */
  lemma ScaleBackDoubles(r: Rect)
    requires INT_MIN <= 2 * r.x <= INT_MAX && INT_MIN <= 2 * r.y <= INT_MAX
    requires INT_MIN <= 2 * r.width <= INT_MAX && INT_MIN <= 2 * r.height <= INT_MAX
    ensures ScaleBack(r) == Rect(2 * r.x, 2 * r.y, 2 * r.width, 2 * r.height)
  {
  }

  /**
   * detectFace. Without a usable classifier nothing changes. A face from the
   * first strategy is scaled back to full size. A face from the second strategy
   * is copied into the array that `faces.toArray()` returns for the released
   * first result, which is empty, so `copyInto` throws; the exception is caught
   * and the tracked face stays as it was. Only when both half-size strategies
   * find nothing is the full-size strategy tried, and its face is used as is.
   * When all three find nothing the face is lost.
   */
  function ChooseFace(ready: bool, lenient: seq<Rect>, veryLenient: seq<Rect>, fullSize: seq<Rect>): (d: Detection)
    ensures !ready ==> d == Keep
    ensures ready && lenient != [] ==> d == Found(ScaleBack(lenient[0]))
    ensures ready && lenient == [] && veryLenient != [] ==> d == Keep
    ensures ready && lenient == [] && veryLenient == [] && fullSize != [] ==> d == Found(fullSize[0])
    ensures d == Lost <==> ready && lenient == [] && veryLenient == [] && fullSize == []
  {
    if !ready then Keep
    else if lenient != [] then Found(ScaleBack(lenient[0]))
    else if veryLenient != [] then Keep
    else if fullSize != [] then Found(fullSize[0])
    else Lost
  }

  /** The detection pass on one image, asking the detector for each strategy. */
  function DetectOn(ready: bool, image: Image, cv: OpenCv): Detection {
    ChooseFace(ready, cv.detect(image, Lenient), cv.detect(image, VeryLenient), cv.detect(image, FullSize))
  }

  /** A face found by the second strategy alone is never adopted. */
  lemma SecondStrategyNeverAdopted(ready: bool, veryLenient: seq<Rect>, fullSize: seq<Rect>)
    requires veryLenient != []
    ensures ChooseFace(ready, [], veryLenient, fullSize) == Keep
  {
  }

  /** A new face comes only from the first strategy (scaled back) or the full-size strategy. */
  lemma FoundFaceOrigin(ready: bool, lenient: seq<Rect>, veryLenient: seq<Rect>, fullSize: seq<Rect>)
    requires ChooseFace(ready, lenient, veryLenient, fullSize).Found?
    ensures ready
    ensures var f := ChooseFace(ready, lenient, veryLenient, fullSize).face;
      (lenient != [] && f == ScaleBack(lenient[0])) || (lenient == [] && veryLenient == [] && fullSize != [] && f == fullSize[0])
  {
  }
}

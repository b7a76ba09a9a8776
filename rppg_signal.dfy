/**
 * The CHROM rPPG signal chain of the split pipeline (Rppg_Logic.kt): a sliding
 * window of averaged skin colours, the chrominance pulse signal, detrending, a
 * moving-average high-pass filter, normalisation, a magnitude spectrum, the
 * peak search in the heart-rate band, and the red/blue SpO2 approximation.
 *
 * Doubles and floats are reals. The square root and the magnitude of one
 * Hamming-windowed DFT bin are computed by code outside the model (kotlin.math
 * and the source's cosine/sine loop) and are passed in as functions.
 */
module RppgSignal {
  import opened KotlinNumbers
  import opened Averages
  import opened Peaks

  /** One averaged skin colour and the wall-clock millisecond it was taken at. */
  datatype Sample = Sample(r: real, g: real, b: real, timestamp: int)

  /** The last n elements of a history (all of it when it is shorter). */
  function LastN<T>(h: seq<T>, n: nat): (w: seq<T>)
    ensures |w| == if |h| <= n then |h| else n
    ensures w == h[|h| - |w|..]
  {
    if |h| <= n then h else h[|h| - n..]
  }

  /** Appending to a history moves its last-n window by one, dropping the oldest when full. */
  lemma LastNSnoc<T>(h: seq<T>, x: T, n: nat)
    requires n > 0
    ensures LastN(h + [x], n) == if |LastN(h, n)| < n then LastN(h, n) + [x] else LastN(h, n)[1..] + [x]
  {
    if |h| >= n {
      assert (h + [x])[|h| + 1 - n..] == h[|h| + 1 - n..] + [x];
      assert LastN(h, n)[1..] == h[|h| + 1 - n..];
    }
  }

  // ---------------------------------------------------------------- statistics

  /** standardDeviation: zero for no data, otherwise the root of the mean squared deviation. */
  function StandardDeviation(data: seq<real>, sqrt: real -> real): (sd: real)
    ensures data == [] ==> sd == 0.0
  {
    if data == [] then 0.0
    else
      var m := Mean(data);
      sqrt(Mean(seq(|data|, i requires 0 <= i < |data| => (data[i] - m) * (data[i] - m))))
  }

  // ---------------------------------------------------------------- CHROM

  /** X = 3R - 2G of the chrominance method. */
  function ChromX(r: seq<real>, g: seq<real>): (x: seq<real>)
    requires |g| == |r|
    ensures |x| == |r|
  {
    seq(|r|, i requires 0 <= i < |r| => 3.0 * r[i] - 2.0 * g[i])
  }

  /** Y = 1.5R + G - 1.5B of the chrominance method. */
  function ChromY(r: seq<real>, g: seq<real>, b: seq<real>): (y: seq<real>)
    requires |g| == |r| && |b| == |r|
    ensures |y| == |r|
  {
    seq(|r|, i requires 0 <= i < |r| => 1.5 * r[i] + g[i] - 1.5 * b[i])
  }

  /** alpha = std(X) / std(Y), or 1 when Y does not vary: the weight that balances the two. */
  function ChromAlpha(xStd: real, yStd: real): (alpha: real)
    ensures yStd > 0.0 ==> alpha * yStd == xStd
    ensures yStd <= 0.0 ==> alpha == 1.0
  {
    if yStd > 0.0 then xStd / yStd else 1.0
  }

  /** The pulse signal X - alpha * Y. */
  function ChromPulse(r: seq<real>, g: seq<real>, b: seq<real>, sqrt: real -> real): (p: seq<real>)
    requires |g| == |r| && |b| == |r|
    ensures |p| == |r|
  {
    var x := ChromX(r, g);
    var y := ChromY(r, g, b);
    var alpha := ChromAlpha(StandardDeviation(x, sqrt), StandardDeviation(y, sqrt));
    seq(|r|, i requires 0 <= i < |r| => x[i] - alpha * y[i])
  }

  // ---------------------------------------------------------------- filtering

  /** detrend: subtract the mean from every sample. */
  function Detrend(s: seq<real>): (d: seq<real>)
    ensures |d| == |s|
  {
    if s == [] then []
    else
      var m := Mean(s);
      seq(|s|, i requires 0 <= i < |s| => s[i] - m)
  }

  /** A detrended signal has no DC component: its samples sum to zero. */
  lemma DetrendRemovesDc(s: seq<real>)
    ensures Sum(Detrend(s)) == 0.0
  {
    if s != [] {
      SumShifted(s, Mean(s), Detrend(s));
    }
  }

  /** The moving-average window length, fs / lowCut truncated and at least 1. */
  function LowWindow(fs: real, lowCut: real): (w: int)
    requires lowCut != 0.0
    ensures w >= 1
  {
    MaxInt(DoubleToInt(fs / lowCut), 1)
  }

  function WindowStart(i: int, half: int): int { MaxInt(0, i - half) }

  function WindowEnd(i: int, n: int, half: int): int { MinInt(n, i + half + 1) }

  /**
   * bandpassFilter: each sample minus the mean of the samples within half a
   * low-cut window of it (clipped at the ends). The high cut is not used.
   */
  function BandpassFilter(signal: seq<real>, fs: real, lowCut: real, highCut: real): (out: seq<real>)
    requires lowCut != 0.0
    ensures |out| == |signal|
  {
    var half := LowWindow(fs, lowCut) / 2;
    seq(|signal|, i requires 0 <= i < |signal| =>
      signal[i] - Mean(signal[WindowStart(i, half)..WindowEnd(i, |signal|, half)]))
  }

  /** Every window is non-empty and holds the sample it is centred on. */
  lemma WindowHoldsCentre(i: int, n: int, half: int)
    requires 0 <= i < n && half >= 0
    ensures 0 <= WindowStart(i, half) <= i < WindowEnd(i, n, half) <= n
  {
  }

  /** The filter removes a constant signal entirely. */
  lemma BandpassRemovesConstant(signal: seq<real>, fs: real, lowCut: real, highCut: real, c: real)
    requires lowCut != 0.0
    requires forall i :: 0 <= i < |signal| ==> signal[i] == c
    ensures forall i :: 0 <= i < |signal| ==> BandpassFilter(signal, fs, lowCut, highCut)[i] == 0.0
  {
    var half := LowWindow(fs, lowCut) / 2;
    forall i | 0 <= i < |signal|
      ensures BandpassFilter(signal, fs, lowCut, highCut)[i] == 0.0
    {
      var w := signal[WindowStart(i, half)..WindowEnd(i, |signal|, half)];
      MeanOfConstant(w, c);
    }
  }

  /** Adding a constant to the signal does not change the filter's output. */
  lemma BandpassIgnoresOffset(signal: seq<real>, shifted: seq<real>, c: real, fs: real, lowCut: real, highCut: real)
    requires lowCut != 0.0
    requires |shifted| == |signal| && forall i :: 0 <= i < |signal| ==> shifted[i] == signal[i] - c
    ensures BandpassFilter(shifted, fs, lowCut, highCut) == BandpassFilter(signal, fs, lowCut, highCut)
  {
    var half := LowWindow(fs, lowCut) / 2;
    forall i | 0 <= i < |signal|
      ensures BandpassFilter(shifted, fs, lowCut, highCut)[i] == BandpassFilter(signal, fs, lowCut, highCut)[i]
    {
      var lo, hi := WindowStart(i, half), WindowEnd(i, |signal|, half);
      MeanShifted(signal[lo..hi], c, shifted[lo..hi]);
    }
  }

  /** normalize: zero mean and unit deviation, or the signal itself when it does not vary. */
  function Normalize(signal: seq<real>, sqrt: real -> real): (out: seq<real>)
    ensures |out| == |signal|
    ensures StandardDeviation(signal, sqrt) <= 0.0 ==> out == signal
  {
    var std := StandardDeviation(signal, sqrt);
    if std > 0.0 then
      var m := Mean(signal);
      seq(|signal|, i requires 0 <= i < |signal| => (signal[i] - m) / std)
    else signal
  }

  /** A normalised signal that was rescaled has zero mean. */
  lemma NormalizeCentres(signal: seq<real>, sqrt: real -> real)
    requires StandardDeviation(signal, sqrt) > 0.0
    ensures Sum(Normalize(signal, sqrt)) == 0.0
  {
    var std := StandardDeviation(signal, sqrt);
    var m := Mean(signal);
    var centred := seq(|signal|, i requires 0 <= i < |signal| => signal[i] - m);
    SumShifted(signal, m, centred);
    SumScaled(centred, std, Normalize(signal, sqrt));
  }

  /** Steps 2 to 7 of computeHeartRate: the normalised, filtered CHROM pulse signal. */
  function PulseWaveform(r: seq<real>, g: seq<real>, b: seq<real>, fs: real, sqrt: real -> real): (p: seq<real>)
    requires |g| == |r| && |b| == |r|
    ensures |p| == |r|
  {
    Normalize(BandpassFilter(Detrend(ChromPulse(r, g, b, sqrt)), fs, 0.4, 4.0), sqrt)
  }

  // ---------------------------------------------------------------- spectrum

  /** The power spectrum: one magnitude for each of the first n / 2 DFT bins. */
  function Spectrum(signal: seq<real>, binPower: (seq<real>, int) -> real): (ps: seq<real>)
    ensures |ps| == |signal| / 2
    ensures forall k :: 0 <= k < |ps| ==> ps[k] == binPower(signal, k)
  {
    seq(|signal| / 2, k => binPower(signal, k))
  }

  /** A rate in BPM as a fractional bin index: bpm / 60 Hz times n / fs. */
  function BpmToBin(bpm: real, n: int, fs: real): real
    requires fs > 0.0
  {
    bpm / 60.0 * (n as real) / fs
  }

  /** Higher rates map to higher bins. */
  lemma BpmToBinMonotone(a: real, b: real, n: int, fs: real)
    requires a <= b && n >= 0 && fs > 0.0
    ensures BpmToBin(a, n, fs) <= BpmToBin(b, n, fs)
  {
    var u, v := a / 60.0 * (n as real), b / 60.0 * (n as real);
    assert u <= v by {
      assert v - u == (b / 60.0 - a / 60.0) * (n as real);
    }
    assert v / fs - u / fs == (v - u) / fs;
  }

  /** The searched bins: minBpm and maxBpm as bin indices, clipped to the spectrum. */
  function BinRange(minBpm: real, maxBpm: real, n: int, fs: real): (range: (int, int))
    requires fs > 0.0
    ensures range.0 >= 0 && range.1 <= n / 2 - 1
  {
    var minIdx := MaxInt(DoubleToInt(BpmToBin(minBpm, n, fs)), 0);
    var maxIdx := MinInt(DoubleToInt(BpmToBin(maxBpm, n, fs)), n / 2 - 1);
    (minIdx, maxIdx)
  }

  /**
   * A non-empty range needs minBpm <= maxBpm, so the final coerceIn can never
   * throw once the range check has passed.
   */
  lemma BinRangeOrdersBounds(minBpm: real, maxBpm: real, n: int, fs: real)
    requires fs > 0.0 && n >= 0
    requires BinRange(minBpm, maxBpm, n, fs).0 < BinRange(minBpm, maxBpm, n, fs).1
    ensures minBpm <= maxBpm
  {
    if minBpm > maxBpm {
      BpmToBinMonotone(maxBpm, minBpm, n, fs);
      DoubleToIntMonotone(BpmToBin(maxBpm, n, fs), BpmToBin(minBpm, n, fs));
    }
  }

  /** The rate of bin k: its frequency k * fs / n in Hz, times 60. */
  function BinToBpm(k: int, fs: real, n: int): real
    requires n > 0
  {
    k as real * fs / n as real * 60.0
  }

  /** What computeBpmFromPsd returns for a signal: 0 for an empty range, else the clamped peak rate. */
  ghost predicate IsBpmFromPsd(signal: seq<real>, fs: real, minBpm: real, maxBpm: real,
                               binPower: (seq<real>, int) -> real, bpm: real)
    requires fs > 0.0
  {
    var range := BinRange(minBpm, maxBpm, |signal|, fs);
    if range.0 >= range.1 then bpm == 0.0
    else
      BinRangeOrdersBounds(minBpm, maxBpm, |signal|, fs);
      exists k :: IsFirstPositivePeak(Spectrum(signal, binPower), range.0, range.1, k)
        && bpm == CoerceIn(BinToBpm(k, fs, |signal|), minBpm, maxBpm)
  }

  /** computeBpmFromPsd: fill the spectrum bin by bin, then search the heart-rate band. */
  method ComputeBpmFromPsd(signal: seq<real>, fs: real, minBpm: real, maxBpm: real,
                           binPower: (seq<real>, int) -> real) returns (bpm: real)
    requires fs > 0.0
    ensures IsBpmFromPsd(signal, fs, minBpm, maxBpm, binPower, bpm)
    ensures bpm == 0.0 || minBpm <= bpm <= maxBpm
  {
    var n := |signal|;
    var powerSpectrum := new real[n / 2];
    var k := 0;
    while k < n / 2
      invariant 0 <= k <= n / 2
      invariant forall j :: 0 <= j < k ==> powerSpectrum[j] == binPower(signal, j)
    {
      powerSpectrum[k] := binPower(signal, k);
      k := k + 1;
    }
    assert powerSpectrum[..] == Spectrum(signal, binPower);
    var (minIdx, maxIdx) := BinRange(minBpm, maxBpm, n, fs);
    if minIdx >= maxIdx {
      return 0.0;
    }
    var peak := FirstPositivePeak(powerSpectrum, minIdx, maxIdx);
    BinRangeOrdersBounds(minBpm, maxBpm, n, fs);
    bpm := CoerceIn(BinToBpm(peak, fs, n), minBpm, maxBpm);
  }

  /** With 240 samples at 30 fps and a 40..200 BPM band, bins 5 to 26 are searched. */
  lemma DefaultBinRange()
    ensures BinRange(40.0, 200.0, 240, 30.0) == (5, 26)
  {
    assert BpmToBin(40.0, 240, 30.0) == 16.0 / 3.0;
    assert (16.0 / 3.0).Floor == 5;
    assert BpmToBin(200.0, 240, 30.0) == 80.0 / 3.0;
    assert (80.0 / 3.0).Floor == 26;
  }

  /**
   * In that configuration the resolution is 7.5 BPM: every rate reported is
   * 40 (bin 5, 37.5, clamped up) or 7.5 k for a bin k from 6 to 26.
   */
  lemma DefaultBpmGrid(signal: seq<real>, binPower: (seq<real>, int) -> real, bpm: real)
    requires |signal| == 240
    requires IsBpmFromPsd(signal, 30.0, 40.0, 200.0, binPower, bpm)
    ensures bpm == 40.0 || exists k :: 6 <= k <= 26 && bpm == BinToBpm(k, 30.0, 240) && bpm == 7.5 * k as real
  {
    DefaultBinRange();
    var k :| IsFirstPositivePeak(Spectrum(signal, binPower), 5, 26, k)
      && bpm == CoerceIn(BinToBpm(k, 30.0, 240), 40.0, 200.0);
    assert BinToBpm(k, 30.0, 240) == 7.5 * k as real;
    if k > 5 {
      assert bpm == BinToBpm(k, 30.0, 240);
    }
  }

  // ---------------------------------------------------------------- SpO2

  /**
   * estimateSpO2: 110 - 25 * (red AC/DC) / (blue AC/DC), clamped to [90, 100];
   * 97 when a DC level or the blue AC part is not positive. An empty channel
   * averages to NaN, so it fails the positivity test and gives 97 as well.
   */
  function EstimateSpO2(r: seq<real>, g: seq<real>, b: seq<real>, sqrt: real -> real): (spo2: real)
    ensures 90.0 <= spo2 <= 100.0
    ensures r == [] || b == [] ==> spo2 == 97.0
  {
    if r == [] || b == [] then 97.0
    else
      var rAC := StandardDeviation(r, sqrt);
      var rDC := Mean(r);
      var bAC := StandardDeviation(b, sqrt);
      var bDC := Mean(b);
      if rDC > 0.0 && bDC > 0.0 && bAC > 0.0 then
        var ratioRed := rAC / rDC;
        var ratioBlue := bAC / bDC;
        var ratio := if ratioBlue > 0.0 then ratioRed / ratioBlue else 1.0;
        CoerceIn(110.0 - 25.0 * ratio, 90.0, 100.0)
      else 97.0
  }

  /** Equal relative pulsation in red and blue gives 85 before clamping, so 90. */
  lemma SpO2OfEqualRatios(r: seq<real>, g: seq<real>, b: seq<real>, sqrt: real -> real)
    requires r != [] && b != []
    requires Mean(r) > 0.0 && Mean(b) > 0.0 && StandardDeviation(b, sqrt) > 0.0
    requires StandardDeviation(r, sqrt) / Mean(r) == StandardDeviation(b, sqrt) / Mean(b)
    ensures EstimateSpO2(r, g, b, sqrt) == 90.0
  {
    var ratioBlue := StandardDeviation(b, sqrt) / Mean(b);
    assert ratioBlue > 0.0;
    assert ratioBlue / ratioBlue == 1.0;
  }

  /**
   * The reading along the curve: with both channels pulsing, a red-to-blue
   * ratio of at most 0.4 reads 100, at least 0.8 reads 90, and 110 - 25 * ratio between.
   */
  lemma SpO2Curve(r: seq<real>, g: seq<real>, b: seq<real>, sqrt: real -> real)
    requires r != [] && b != []
    requires Mean(r) > 0.0 && Mean(b) > 0.0 && StandardDeviation(b, sqrt) > 0.0
    ensures var ratio := (StandardDeviation(r, sqrt) / Mean(r)) / (StandardDeviation(b, sqrt) / Mean(b));
      && (ratio <= 0.4 ==> EstimateSpO2(r, g, b, sqrt) == 100.0)
      && (ratio >= 0.8 ==> EstimateSpO2(r, g, b, sqrt) == 90.0)
      && (0.4 <= ratio <= 0.8 ==> EstimateSpO2(r, g, b, sqrt) == 110.0 - 25.0 * ratio)
  {
    var ratioBlue := StandardDeviation(b, sqrt) / Mean(b);
    assert ratioBlue > 0.0;
  }

  /** Against the same blue channel, more relative pulsation in red never raises the reading. */
  lemma SpO2FallsWithRedRatio(r1: seq<real>, r2: seq<real>, g: seq<real>, b: seq<real>, sqrt: real -> real)
    requires r1 != [] && r2 != [] && b != []
    requires Mean(r1) > 0.0 && Mean(r2) > 0.0 && Mean(b) > 0.0 && StandardDeviation(b, sqrt) > 0.0
    requires StandardDeviation(r1, sqrt) / Mean(r1) <= StandardDeviation(r2, sqrt) / Mean(r2)
    ensures EstimateSpO2(r2, g, b, sqrt) <= EstimateSpO2(r1, g, b, sqrt)
  {
    var ratioBlue := StandardDeviation(b, sqrt) / Mean(b);
    assert ratioBlue > 0.0;
    var ratio1 := (StandardDeviation(r1, sqrt) / Mean(r1)) / ratioBlue;
    var ratio2 := (StandardDeviation(r2, sqrt) / Mean(r2)) / ratioBlue;
    assert ratio1 <= ratio2;
    assert 110.0 - 25.0 * ratio2 <= 110.0 - 25.0 * ratio1;
  }

  // ---------------------------------------------------------------- the buffer

  /** RppgLogic: the sliding window of samples and the heart-rate computation over it. */
  class RppgLogic {
    const targetFps: int
    const windowSizeSeconds: int
    const minBpm: real
    const maxBpm: real
    const requiredSamples: int

    var redSignal: seq<real>
    var greenSignal: seq<real>
    var blueSignal: seq<real>
    var timestamps: seq<int>

    /** Every sample added since construction or the last reset, oldest first. */
    ghost var pushed: seq<Sample>

    function Window(): (w: seq<Sample>)
      reads this
      requires |greenSignal| == |redSignal| && |blueSignal| == |redSignal| && |timestamps| == |redSignal|
      ensures |w| == |redSignal|
    {
      var red, green, blue, times := redSignal, greenSignal, blueSignal, timestamps;
      seq(|red|, i requires 0 <= i < |red| => Sample(red[i], green[i], blue[i], times[i]))
    }

    /** The four buffers run in parallel and hold the last requiredSamples samples added. */
    ghost predicate Valid()
      reads this
    {
      && targetFps > 0 && windowSizeSeconds > 0
      && requiredSamples == targetFps * windowSizeSeconds
      && |greenSignal| == |redSignal| && |blueSignal| == |redSignal| && |timestamps| == |redSignal|
      && Window() == LastN(pushed, requiredSamples)
    }

    constructor (targetFps: int, windowSizeSeconds: int, minBpm: real, maxBpm: real)
      requires targetFps > 0 && windowSizeSeconds > 0
      requires targetFps * windowSizeSeconds <= INT_MAX
      ensures Valid() && fresh(this)
      ensures this.targetFps == targetFps && this.windowSizeSeconds == windowSizeSeconds
      ensures this.minBpm == minBpm && this.maxBpm == maxBpm
      ensures redSignal == [] && pushed == []
    {
      this.targetFps := targetFps;
      this.windowSizeSeconds := windowSizeSeconds;
      this.minBpm := minBpm;
      this.maxBpm := maxBpm;
      requiredSamples := targetFps * windowSizeSeconds;
      redSignal, greenSignal, blueSignal, timestamps := [], [], [], [];
      pushed := [];
    }

    /** addSignalSample: append to all four buffers, dropping the oldest once over capacity. */
    method AddSignalSample(r: real, g: real, b: real, timestamp: int)
      requires Valid()
      modifies this
      ensures Valid()
      ensures pushed == old(pushed) + [Sample(r, g, b, timestamp)]
      ensures |redSignal| == MinInt(|old(redSignal)| + 1, requiredSamples)
      ensures Window() == if |old(redSignal)| < requiredSamples
                          then old(Window()) + [Sample(r, g, b, timestamp)]
                          else old(Window())[1..] + [Sample(r, g, b, timestamp)]
    {
      ghost var before := Window();
      redSignal := redSignal + [r];
      greenSignal := greenSignal + [g];
      blueSignal := blueSignal + [b];
      timestamps := timestamps + [timestamp];
      assert Window() == before + [Sample(r, g, b, timestamp)];
      if |redSignal| > requiredSamples {
        redSignal := redSignal[1..];
        greenSignal := greenSignal[1..];
        blueSignal := blueSignal[1..];
        timestamps := timestamps[1..];
        assert Window() == before[1..] + [Sample(r, g, b, timestamp)];
      }
      LastNSnoc(pushed, Sample(r, g, b, timestamp), requiredSamples);
      pushed := pushed + [Sample(r, g, b, timestamp)];
    }

    /** hasEnoughSamples: the window is full, which happens once requiredSamples samples were added. */
    function HasEnoughSamples(): (full: bool)
      reads this
      requires Valid()
      ensures full <==> |pushed| >= requiredSamples
    {
      |redSignal| >= requiredSamples
    }

    /**
     * computeHeartRate: (0, 0) until the window is full; otherwise the rate found
     * in the pulse waveform's spectrum and the SpO2 estimate of the raw window.
     */
    method ComputeHeartRate(sqrt: real -> real, binPower: (seq<real>, int) -> real)
      returns (bpm: real, spo2: real)
      requires Valid()
      ensures !HasEnoughSamples() ==> bpm == 0.0 && spo2 == 0.0
      ensures HasEnoughSamples() ==>
        && IsBpmFromPsd(PulseWaveform(redSignal, greenSignal, blueSignal, targetFps as real, sqrt),
                        targetFps as real, minBpm, maxBpm, binPower, bpm)
        && spo2 == EstimateSpO2(redSignal, greenSignal, blueSignal, sqrt)
      ensures bpm == 0.0 || minBpm <= bpm <= maxBpm
      ensures spo2 == 0.0 || 90.0 <= spo2 <= 100.0
    {
      if !HasEnoughSamples() {
        return 0.0, 0.0;
      }
      var fs := targetFps as real;
      var normalized := PulseWaveform(redSignal, greenSignal, blueSignal, fs, sqrt);
      bpm := ComputeBpmFromPsd(normalized, fs, minBpm, maxBpm, binPower);
      spo2 := EstimateSpO2(redSignal, greenSignal, blueSignal, sqrt);
    }

    /** reset: empty all four buffers. */
    method Reset()
      requires Valid()
      modifies this
      ensures Valid() && redSignal == [] && pushed == []
    {
      redSignal, greenSignal, blueSignal, timestamps := [], [], [], [];
      pushed := [];
    }

    function CurrentBufferSize(): (size: int)
      reads this
      requires Valid()
      ensures 0 <= size <= requiredSamples
    {
      |redSignal|
    }
  }
}

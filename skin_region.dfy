/**
 * The RSVR (relative saturation value range) skin selection of
 * FrameAnalyzer.extractSkinPixels: a 256-bin histogram of the face's HSV
 * saturation, a length-5 median filter over it, the most frequent saturation,
 * a window of +-10% of that value around it, and the mask of pixels inside.
 */
module SkinRegion {
  import opened KotlinNumbers
  import opened FaceDetection

  const HIST_SIZE: int := 256

  // ---------------------------------------------------------------- sorting

  predicate SortedAsc(s: seq<real>) {
    forall i, j :: 0 <= i < j < |s| ==> s[i] <= s[j]
  }

  /** An element no larger than the head of an ascending sequence extends it. */
  lemma ConsSorted(a: real, t: seq<real>)
    requires SortedAsc(t) && (t == [] || a <= t[0])
    ensures SortedAsc([a] + t)
  {
    forall i, j | 0 <= i < j < |t| + 1
      ensures ([a] + t)[i] <= ([a] + t)[j]
    {
      if i == 0 && j > 1 {
        assert t[0] <= t[j - 1];
      }
    }
  }

  /** Insert into an ascending sequence, in front of the first larger element. */
  function InsertSorted(x: real, s: seq<real>): (r: seq<real>)
    requires SortedAsc(s)
    ensures SortedAsc(r)
    ensures multiset(r) == multiset(s) + multiset{x}
    ensures |r| == |s| + 1
    ensures r[0] == if s == [] || x <= s[0] then x else s[0]
  {
    if s == [] then [x]
    else if x <= s[0] then ConsSorted(x, s); [x] + s
    else
      assert s == [s[0]] + s[1..];
      assert SortedAsc(s[1..]) by {
        forall i, j | 0 <= i < j < |s| - 1 ensures s[1..][i] <= s[1..][j] {
          assert s[1..][i] == s[i + 1] && s[1..][j] == s[j + 1];
        }
      }
      var rest := InsertSorted(x, s[1..]);
      ConsSorted(s[0], rest);
      [s[0]] + rest
  }

  /** Kotlin's `sorted()` on a list of floats: the ascending permutation. */
  function SortAsc(s: seq<real>): (r: seq<real>)
    ensures SortedAsc(r)
    ensures multiset(r) == multiset(s)
    ensures |r| == |s|
  {
    if s == [] then []
    else
      assert s == [s[0]] + s[1..];
      InsertSorted(s[0], SortAsc(s[1..]))
  }

  /** How many elements are below v, and how many are at most v. */
  function CountBelow(s: seq<real>, v: real): (n: nat)
    ensures n <= |s|
  {
    if s == [] then 0 else (if s[0] < v then 1 else 0) + CountBelow(s[1..], v)
  }

  function CountAtMost(s: seq<real>, v: real): (n: nat)
    ensures n <= |s|
  {
    if s == [] then 0 else (if s[0] <= v then 1 else 0) + CountAtMost(s[1..], v)
  }

  /** m is the k-th smallest element (from 0) of w: at most k lie below it and more than k at or below it. */
  predicate IsOrderStatistic(w: seq<real>, k: int, m: real) {
    CountBelow(w, m) <= k < CountAtMost(w, m)
  }

  lemma {:induction false} CountBelowInsert(x: real, s: seq<real>, v: real)
    requires SortedAsc(s)
    ensures CountBelow(InsertSorted(x, s), v) == CountBelow(s, v) + (if x < v then 1 else 0)
  {
    if s != [] && x > s[0] {
      var rest := InsertSorted(x, s[1..]);
      assert InsertSorted(x, s) == [s[0]] + rest;
      assert ([s[0]] + rest)[1..] == rest;
      CountBelowInsert(x, s[1..], v);
    } else if s != [] {
      assert ([x] + s)[1..] == s;
    }
  }

  lemma {:induction false} CountAtMostInsert(x: real, s: seq<real>, v: real)
    requires SortedAsc(s)
    ensures CountAtMost(InsertSorted(x, s), v) == CountAtMost(s, v) + (if x <= v then 1 else 0)
  {
    if s != [] && x > s[0] {
      var rest := InsertSorted(x, s[1..]);
      assert InsertSorted(x, s) == [s[0]] + rest;
      assert ([s[0]] + rest)[1..] == rest;
      CountAtMostInsert(x, s[1..], v);
    } else if s != [] {
      assert ([x] + s)[1..] == s;
    }
  }

  lemma {:induction false} CountSort(s: seq<real>, v: real)
    ensures CountBelow(SortAsc(s), v) == CountBelow(s, v)
    ensures CountAtMost(SortAsc(s), v) == CountAtMost(s, v)
  {
    if s != [] {
      CountSort(s[1..], v);
      CountBelowInsert(s[0], SortAsc(s[1..]), v);
      CountAtMostInsert(s[0], SortAsc(s[1..]), v);
    }
  }

  lemma {:induction false} CountBelowOfLarger(t: seq<real>, v: real)
    requires forall i :: 0 <= i < |t| ==> v <= t[i]
    ensures CountBelow(t, v) == 0
  {
    if t != [] {
      CountBelowOfLarger(t[1..], v);
    }
  }

  /** In an ascending sequence the element at index k is its k-th order statistic. */
  lemma {:induction false} SortedOrderStatistic(t: seq<real>, k: int)
    requires SortedAsc(t) && 0 <= k < |t|
    ensures IsOrderStatistic(t, k, t[k])
  {
    if k == 0 {
      CountBelowOfLarger(t, t[0]);
    } else {
      assert t[1..][k - 1] == t[k];
      SortedOrderStatistic(t[1..], k - 1);
    }
  }

  /** Larger values have at least as many elements below them as smaller values have at or below. */
  lemma {:induction false} CountsOrdered(w: seq<real>, v1: real, v2: real)
    requires v1 < v2
    ensures CountAtMost(w, v1) <= CountBelow(w, v2)
  {
    if w != [] {
      CountsOrdered(w[1..], v1, v2);
    }
  }

  /** Each rank has exactly one order statistic. */
  lemma OrderStatisticUnique(w: seq<real>, k: int, m1: real, m2: real)
    requires IsOrderStatistic(w, k, m1) && IsOrderStatistic(w, k, m2)
    ensures m1 == m2
  {
    if m1 < m2 {
      CountsOrdered(w, m1, m2);
    } else if m2 < m1 {
      CountsOrdered(w, m2, m1);
    }
  }

  /** An order statistic is one of the elements. */
  lemma {:induction false} OrderStatisticIsElement(w: seq<real>, k: int, m: real)
    requires IsOrderStatistic(w, k, m)
    ensures m in w
  {
    if w[0] != m {
      OrderStatisticIsElement(w[1..], if w[0] < m then k - 1 else k, m);
    }
  }

  // ---------------------------------------------------------------- median filter

  /** `values.sorted()[values.size / 2]`: the upper median of a window. */
  function UpperMedian(w: seq<real>): real
    requires |w| > 0
  {
    SortAsc(w)[|w| / 2]
  }

  /** The upper median is the element of rank |w| / 2, an element of the window. */
  lemma UpperMedianRank(w: seq<real>)
    requires |w| > 0
    ensures IsOrderStatistic(w, |w| / 2, UpperMedian(w))
    ensures UpperMedian(w) in w
  {
    SortedOrderStatistic(SortAsc(w), |w| / 2);
    CountSort(w, UpperMedian(w));
    OrderStatisticIsElement(w, |w| / 2, UpperMedian(w));
  }

  /** The filter's window around bin i: bins max(0, i - 2) to min(255, i + 2). */
  function HistWindow(hist: seq<real>, i: int): (w: seq<real>)
    requires |hist| == HIST_SIZE && 0 <= i < HIST_SIZE
    ensures 3 <= |w| <= 5
  {
    hist[MaxInt(0, i - 2)..MinInt(HIST_SIZE - 1, i + 2) + 1]
  }

  /** The length-5 median filter, computed window by window as the source does. */
  method SmoothHistogram(hist: seq<real>) returns (smoothed: array<real>)
    requires |hist| == HIST_SIZE
    ensures fresh(smoothed) && smoothed.Length == HIST_SIZE
    ensures forall i :: 0 <= i < HIST_SIZE ==> smoothed[i] == UpperMedian(HistWindow(hist, i))
  {
    smoothed := new real[HIST_SIZE];
    for i := 0 to HIST_SIZE
      invariant forall k :: 0 <= k < i ==> smoothed[k] == UpperMedian(HistWindow(hist, k))
    {
      var windowStart := MaxInt(0, i - 2);
      var windowEnd := MinInt(HIST_SIZE - 1, i + 2);
      var values: seq<real> := [];
      for j := windowStart to windowEnd + 1
        invariant values == hist[windowStart..j]
      {
        values := values + [hist[j]];
      }
      assert values == HistWindow(hist, i);
      smoothed[i] := SortAsc(values)[|values| / 2];
    }
  }

  /** Counts are never negative, so neither is their median. */
  lemma SmoothedNonNegative(hist: seq<real>, i: int)
    requires |hist| == HIST_SIZE && 0 <= i < HIST_SIZE
    requires forall k :: 0 <= k < HIST_SIZE ==> hist[k] >= 0.0
    ensures UpperMedian(HistWindow(hist, i)) >= 0.0
  {
    UpperMedianRank(HistWindow(hist, i));
  }

  /** The filter removes an isolated one-bin spike: a bin between two zero neighbours on each side smooths to 0. */
  lemma MedianRemovesSpike(hist: seq<real>, i: int)
    requires |hist| == HIST_SIZE && 2 <= i < HIST_SIZE - 2
    requires hist[i - 2] == 0.0 && hist[i - 1] == 0.0 && hist[i + 1] == 0.0 && hist[i + 2] == 0.0
    requires hist[i] >= 0.0
    ensures UpperMedian(HistWindow(hist, i)) == 0.0
  {
    var w := HistWindow(hist, i);
    assert w == [0.0, 0.0, hist[i], 0.0, 0.0];
    CountBelowOfLarger(w, 0.0);
    assert CountAtMost(w, 0.0) >= 3 by {
      var w1, w2, w3, w4 := w[1..], w[2..], w[3..], w[4..];
      assert w1[1..] == w2 && w2[1..] == w3 && w3[1..] == w4;
      assert CountAtMost(w4, 0.0) == 1 by { assert w4 == [0.0] && w4[1..] == []; }
      assert CountAtMost(w3, 0.0) == 2;
      assert CountAtMost(w1, 0.0) >= 2;
    }
    UpperMedianRank(w);
    OrderStatisticUnique(w, 2, 0.0, UpperMedian(w));
  }

  // ---------------------------------------------------------------- histogram

  /** How many pixels of the saturation plane have value v. */
  function CountValue(sat: seq<seq<Byte>>, v: int): (n: nat) {
    if sat == [] then 0 else RowCount(sat[0], v) + CountValue(sat[1..], v)
  }

  function RowCount(row: seq<Byte>, v: int): nat {
    if row == [] then 0 else (if row[0] == v then 1 else 0) + RowCount(row[1..], v)
  }

  /** Imgproc.calcHist with 256 bins over [0, 256): bin v counts the pixels of value v. */
  function Histogram(sat: seq<seq<Byte>>): (hist: seq<real>)
    ensures |hist| == HIST_SIZE
    ensures forall v :: 0 <= v < HIST_SIZE ==> hist[v] == CountValue(sat, v) as real && hist[v] >= 0.0
  {
    seq(HIST_SIZE, v => CountValue(sat, v) as real)
  }

  // ---------------------------------------------------------------- threshold window

  /** thRange = (ALPHA * histmax).toInt() with ALPHA = 0.2, so the window is histmax +- thRange / 2. */
  function ThresholdWindow(histmax: int): (bounds: (int, int))
    requires 0 <= histmax < HIST_SIZE
    ensures 0 <= bounds.0 <= histmax <= bounds.1 <= 255
  {
    var thRange := DoubleToInt(0.2 * histmax as real);
    (MaxInt(0, histmax - thRange / 2), MinInt(255, histmax + thRange / 2))
  }

  /**
   * The window is histmax +- (histmax / 5) / 2, clipped only at 255: its lower
   * edge never goes below 0 and it is at most a fifth of histmax wide.
   */
  lemma ThresholdWindowShape(histmax: int)
    requires 0 <= histmax < HIST_SIZE
    ensures DoubleToInt(0.2 * histmax as real) == histmax / 5
    ensures ThresholdWindow(histmax) == (histmax - histmax / 5 / 2, MinInt(255, histmax + histmax / 5 / 2))
    ensures ThresholdWindow(histmax).1 - ThresholdWindow(histmax).0 <= histmax / 5
  {
    var x := 0.2 * histmax as real;
    var q := histmax / 5;
    assert x == q as real + (histmax % 5) as real / 5.0;
    assert x.Floor == q;
  }

  /** The skin mask: a pixel is skin exactly when its saturation lies in [lower, upper]. */
  function SkinMask(sat: seq<seq<Byte>>, lower: int, upper: int): (mask: seq<seq<bool>>)
    ensures |mask| == |sat|
    ensures forall i :: 0 <= i < |sat| ==> |mask[i]| == |sat[i]|
    ensures forall i, j :: 0 <= i < |sat| && 0 <= j < |sat[i]| ==> (mask[i][j] <==> lower <= sat[i][j] <= upper)
  {
    seq(|sat|, i requires 0 <= i < |sat| =>
      seq(|sat[i]|, j requires 0 <= j < |sat[i]| => lower <= sat[i][j] <= upper))
  }

  /** The mask loop over rows and columns, marking in-range pixels. */
  method BuildMask(sat: seq<seq<Byte>>, lower: int, upper: int) returns (mask: seq<seq<bool>>)
    ensures mask == SkinMask(sat, lower, upper)
  {
    mask := [];
    for i := 0 to |sat|
      invariant |mask| == i
      invariant forall k :: 0 <= k < i ==> |mask[k]| == |sat[k]|
      invariant forall k, j :: 0 <= k < i && 0 <= j < |sat[k]| ==> (mask[k][j] <==> lower <= sat[k][j] <= upper)
    {
      var row: seq<bool> := [];
      for j := 0 to |sat[i]|
        invariant |row| == j
        invariant forall c :: 0 <= c < j ==> (row[c] <==> lower <= sat[i][c] <= upper)
      {
        row := row + [lower <= sat[i][j] <= upper];
      }
      mask := mask + [row];
    }
    var spec := SkinMask(sat, lower, upper);
    forall k | 0 <= k < |sat|
      ensures mask[k] == spec[k]
    {
      assert |mask[k]| == |spec[k]|;
    }
  }
}

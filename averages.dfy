/**
 * Sums and arithmetic means over sequences of reals: Kotlin's `average()`
 * on a DoubleArray or a List<Float>, with doubles and floats read as reals.
 */
module Averages {

  function Sum(s: seq<real>): real {
    if s == [] then 0.0 else s[0] + Sum(s[1..])
  }

  /** `average()` of a non-empty collection. */
  function Mean(s: seq<real>): real
    requires |s| > 0
  {
    Sum(s) / |s| as real
  }

  /** `if (xs.isNotEmpty()) xs.average() else 0f`, the session controllers' final average. */
  function MeanOrZero(s: seq<real>): (r: real)
    ensures s == [] ==> r == 0.0
  {
    if s == [] then 0.0 else Mean(s)
  }

  predicate AllWithin(s: seq<real>, lo: real, hi: real) {
    forall i :: 0 <= i < |s| ==> lo <= s[i] <= hi
  }

  lemma {:induction false} SumAppend(a: seq<real>, b: seq<real>)
    ensures Sum(a + b) == Sum(a) + Sum(b)
  {
    if a == [] {
      assert a + b == b;
    } else {
      assert (a + b)[1..] == a[1..] + b;
      SumAppend(a[1..], b);
    }
  }

  lemma {:induction false} SumBounds(s: seq<real>, lo: real, hi: real)
    requires AllWithin(s, lo, hi)
    ensures |s| as real * lo <= Sum(s) <= |s| as real * hi
  {
    if s != [] {
      SumBounds(s[1..], lo, hi);
    }
  }

  /** The mean of readings that all lie in [lo, hi] lies in [lo, hi] too. */
  lemma MeanWithin(s: seq<real>, lo: real, hi: real)
    requires |s| > 0 && AllWithin(s, lo, hi)
    ensures lo <= Mean(s) <= hi
  {
    SumBounds(s, lo, hi);
    var n := |s| as real;
    assert n * lo <= Sum(s) <= n * hi;
    assert lo == (n * lo) / n && hi == (n * hi) / n;
  }

  /** Subtracting a constant from every element lowers the sum by n times it. */
  lemma {:induction false} SumShifted(s: seq<real>, c: real, t: seq<real>)
    requires |t| == |s| && forall i :: 0 <= i < |s| ==> t[i] == s[i] - c
    ensures Sum(t) == Sum(s) - |s| as real * c
  {
    if s != [] {
      SumShifted(s[1..], c, t[1..]);
    }
  }

  /** Subtracting a constant from every element lowers the mean by it. */
  lemma MeanShifted(s: seq<real>, c: real, t: seq<real>)
    requires |s| > 0
    requires |t| == |s| && forall i :: 0 <= i < |s| ==> t[i] == s[i] - c
    ensures Mean(t) == Mean(s) - c
  {
    SumShifted(s, c, t);
    var n := |s| as real;
    assert (Sum(s) - n * c) / n == Sum(s) / n - c;
  }

  /** Dividing every element by d divides the sum by d. */
  lemma {:induction false} SumScaled(s: seq<real>, d: real, t: seq<real>)
    requires d != 0.0
    requires |t| == |s| && forall i :: 0 <= i < |s| ==> t[i] == s[i] / d
    ensures Sum(t) == Sum(s) / d
  {
    if s != [] {
      SumScaled(s[1..], d, t[1..]);
      assert t[0] + Sum(s[1..]) / d == (s[0] + Sum(s[1..])) / d;
    }
  }

  /** The mean of a constant sequence is that constant. */
  lemma MeanOfConstant(s: seq<real>, c: real)
    requires |s| > 0 && forall i :: 0 <= i < |s| ==> s[i] == c
    ensures Mean(s) == c
  {
    SumBounds(s, c, c);
  }

  /** Readings 70, 72, 74 and 96, 97, 98 average to 72 and 97. */
  lemma AveragingExample()
    ensures MeanOrZero([70.0, 72.0, 74.0]) == 72.0
    ensures MeanOrZero([96.0, 97.0, 98.0]) == 97.0
  {
    assert Sum([70.0, 72.0, 74.0]) == 216.0 by {
      assert [70.0, 72.0, 74.0][1..] == [72.0, 74.0];
      assert [72.0, 74.0][1..] == [74.0];
      assert [74.0][1..] == [];
    }
    assert Sum([96.0, 97.0, 98.0]) == 291.0 by {
      assert [96.0, 97.0, 98.0][1..] == [97.0, 98.0];
      assert [97.0, 98.0][1..] == [98.0];
      assert [98.0][1..] == [];
    }
  }
}

/**
 * The peak search of computeBpmFromPsd and of the histmax search in
 * extractSkinPixels: a running maximum that starts at 0 and
 * at the lower bound of the range and moves only on a strictly larger value.
 * It picks the first bin holding the largest positive value, and the lower
 * bound when no bin in the range is positive.
 */
module Peaks {

  predicate IsFirstPositivePeak(ps: seq<real>, lo: int, hi: int, k: int) {
    && 0 <= lo <= k <= hi < |ps|
    && if exists j :: lo <= j <= hi && ps[j] > 0.0 then
         && ps[k] > 0.0
         && (forall j :: lo <= j <= hi ==> ps[j] <= ps[k])
         && (forall j :: lo <= j < k ==> ps[j] < ps[k])
       else
         k == lo
  }

  /** The running-maximum loop's result, over bins lo..hi inclusive of an array. */
  method FirstPositivePeak(ps: array<real>, lo: int, hi: int) returns (k: int)
    requires 0 <= lo <= hi < ps.Length
    ensures IsFirstPositivePeak(ps[..], lo, hi, k)
  {
    var maxPower := 0.0;
    k := lo;
    var i := lo;
    while i <= hi
      invariant lo <= i <= hi + 1
      invariant maxPower >= 0.0
      invariant forall j :: lo <= j < i ==> ps[j] <= maxPower
      invariant maxPower > 0.0 ==> lo <= k < i && ps[k] == maxPower && forall j :: lo <= j < k ==> ps[j] < maxPower
      invariant maxPower == 0.0 ==> k == lo
    {
      if ps[i] > maxPower {
        maxPower := ps[i];
        k := i;
      }
      i := i + 1;
    }
  }

  /** Only one index satisfies the description, so it specifies the search completely. */
  lemma PeakUnique(ps: seq<real>, lo: int, hi: int, k1: int, k2: int)
    requires IsFirstPositivePeak(ps, lo, hi, k1) && IsFirstPositivePeak(ps, lo, hi, k2)
    ensures k1 == k2
  {
  }

  /** On a non-negative range (a magnitude spectrum, a histogram) the search is the first argmax. */
  lemma PeakOfNonNegativeIsFirstArgmax(ps: seq<real>, lo: int, hi: int, k: int)
    requires IsFirstPositivePeak(ps, lo, hi, k)
    requires forall j :: lo <= j <= hi ==> ps[j] >= 0.0
    ensures forall j :: lo <= j <= hi ==> ps[j] <= ps[k]
    ensures forall j :: lo <= j < k ==> ps[j] < ps[k]
  {
    if !exists j :: lo <= j <= hi && ps[j] > 0.0 {
      assert forall j :: lo <= j <= hi ==> ps[j] == 0.0;
    }
  }
}

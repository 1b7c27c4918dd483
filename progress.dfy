/**
  The nearest-sample search of recalculateCarProgress (src/main.js): a
  linear scan over the distances from the car to the track's dense samples
  for the first sample at minimal distance. The distances themselves
  (vector lengths to points of the track curve) are given.
 */
module Progress {
  import opened Optional

  /** Sample `i` is at minimal distance, and every earlier sample is strictly farther. */
  predicate IsFirstMinimum(distances: seq<real>, i: int)
  {
    && 0 <= i < |distances|
    && (forall j :: 0 <= j < |distances| ==> distances[i] <= distances[j])
    && (forall j :: 0 <= j < i ==> distances[i] < distances[j])
  }

  /** At most one sample is the first minimum. */
  lemma FirstMinimumIsUnique(distances: seq<real>, i: int, k: int)
    requires IsFirstMinimum(distances, i) && IsFirstMinimum(distances, k)
    ensures i == k
  {
    assert distances[i] <= distances[k] && distances[k] <= distances[i];
  }

  /**
    The scan: `minDistance` starts at Infinity (None) and each strictly
    smaller distance replaces it, so ties keep the earlier sample. With no
    samples the index stays 0 and the distance Infinity.
   */
  method ClosestSample(distances: seq<real>) returns (closestIndex: nat, minDistance: Option<real>)
    ensures |distances| == 0 ==> closestIndex == 0 && minDistance == None
    ensures |distances| > 0 ==>
      IsFirstMinimum(distances, closestIndex) && minDistance == Some(distances[closestIndex])
  {
    minDistance := None;
    closestIndex := 0;
    var i := 0;
    while i < |distances|
      invariant 0 <= i <= |distances|
      invariant i == 0 ==> closestIndex == 0 && minDistance == None
      invariant i > 0 ==> closestIndex < i && minDistance == Some(distances[closestIndex])
      invariant forall j :: 0 <= j < i ==> distances[closestIndex] <= distances[j]
      invariant forall j :: 0 <= j < closestIndex ==> distances[closestIndex] < distances[j]
    {
      var dist := distances[i];
      if minDistance.None? || dist < minDistance.value {
        minDistance := Some(dist);
        closestIndex := i;
      }
      i := i + 1;
    }
  }

  /** `closestIndex / (n - 1)`: the progress of sample `i` of `n`, in [0, 1]. */
  function SampleProgress(i: nat, sampleCount: nat): (p: real)
    requires sampleCount >= 2 && i < sampleCount
    ensures 0.0 <= p <= 1.0
    ensures p == 0.0 <==> i == 0
    ensures p == 1.0 <==> i == sampleCount - 1
    ensures p * (sampleCount - 1) as real == i as real
  {
    i as real / (sampleCount - 1) as real
  }
}

/**
  Track-relative checkpoint arithmetic of src/main.js: the evenly spaced
  checkpoint progress values, the wraparound-aware crossing test, the
  per-frame progress delta normalised across the 1 -> 0 seam, and the
  number of checkpoints completed in the current lap.
  A progress value is a fraction of the loop; 0 is the start/finish line.
 */
module Checkpoints {

  /** CHECKPOINT_COUNT: the number of checkpoints on every track. */
  const CHECKPOINT_COUNT: int := 16

  /** Progress values `i / CHECKPOINT_COUNT` of the checkpoints, built once per track. */
  function CheckpointProgresses(): (ps: seq<real>)
    ensures |ps| == CHECKPOINT_COUNT
    ensures ps[0] == 0.0
    ensures forall i :: 0 <= i < |ps| ==> 0.0 <= ps[i] < 1.0
    ensures forall i, j :: 0 <= i < j < |ps| ==> ps[i] < ps[j]
  {
    seq(CHECKPOINT_COUNT, i => i as real / CHECKPOINT_COUNT as real)
  }

  /**
    hasCrossedCheckpoint: with no wrap (previous <= current) the target must
    lie in [previous, current]; after a wrap past the seam it must lie at or
    after previous, or at or before current.
   */
  predicate HasCrossedCheckpoint(previous: real, current: real, target: real)
  {
    if previous <= current then previous <= target && current >= target
    else previous <= target || current >= target
  }

  /** How far forward along the loop `to` lies from `from`, for values in [0, 1). */
  function ForwardDistance(from: real, to: real): (d: real)
    requires 0.0 <= from < 1.0 && 0.0 <= to < 1.0
    ensures 0.0 <= d < 1.0
    ensures d == to - from || d == to - from + 1.0
  {
    if to >= from then to - from else to - from + 1.0
  }

  /**
    The crossing test, stated independently: the target is crossed exactly
    when it lies on the forward arc that runs from `previous` to `current`.
   */
  lemma CrossingIsForwardArc(previous: real, current: real, target: real)
    requires 0.0 <= previous < 1.0 && 0.0 <= current < 1.0 && 0.0 <= target < 1.0
    ensures HasCrossedCheckpoint(previous, current, target)
        <==> ForwardDistance(previous, target) <= ForwardDistance(previous, current)
  {
  }

  /** The seam examples: from 0.98 to 0.02 the start line (0) is crossed, the half-way mark (0.5) is not. */
  lemma SeamCrossingExamples()
    ensures HasCrossedCheckpoint(0.98, 0.02, 0.0)
    ensures !HasCrossedCheckpoint(0.98, 0.02, 0.5)
  {
  }

  /**
    The per-frame progress change `current - previous`, shifted by one lap
    when it exceeds half a lap either way. The result differs from the raw
    difference by a whole lap at most and, for progress values in [0, 1],
    lies in [-0.5, 0.5].
   */
  function ForwardDelta(previous: real, current: real): (d: real)
    ensures d == current - previous || d == current - previous + 1.0 || d == current - previous - 1.0
    ensures 0.0 <= previous <= 1.0 && 0.0 <= current <= 1.0 ==> -0.5 <= d <= 0.5
    ensures -0.5 <= current - previous <= 0.5 ==> d == current - previous
  {
    var raw := current - previous;
    if raw < -0.5 then raw + 1.0
    else if raw > 0.5 then raw - 1.0
    else raw
  }

  /**
    computeCompletedCheckpoints: `(next + total - 1) % total`, the index of
    the checkpoint just before the next expected one, cyclically, which is
    the number of checkpoints completed in the current lap.
   */
  function CompletedCheckpoints(nextCheckpointIndex: int, totalCheckpoints: int): (c: int)
    requires 0 <= nextCheckpointIndex < totalCheckpoints
    ensures 0 <= c < totalCheckpoints
    ensures (c + 1) % totalCheckpoints == nextCheckpointIndex
    ensures nextCheckpointIndex == 0 ==> c == totalCheckpoints - 1
    ensures nextCheckpointIndex > 0 ==> c == nextCheckpointIndex - 1
  {
    (nextCheckpointIndex + totalCheckpoints - 1) % totalCheckpoints
  }
}

/**
  The race rules of src/main.js as values: the `lapTracker` and `raceState`
  records and the pure effect of each operation that updates them
  (awardCheckpointReward, completeLap, finishRace, updateRaceClock,
  updateLapTimer and the two resets). The imperative versions in module
  RaceSession are proved to change their objects exactly as these
  functions say; the lemmas here state what the rules promise.
 */
module RaceRules {
  import opened Optional
  import opened Helpers
  import opened Checkpoints

  const POINTS_PER_CHECKPOINT: int := 150
  const POINTS_PER_LAP: int := 500
  const RACE_TIME_LIMIT: real := 210.0
  const RACE_LAP_TARGET: int := 3

  /** The reason passed to finishRace: the lap target was reached, or the clock ran out. */
  datatype FinishReason = Laps | Timeout

  /** The fields of `lapTracker`; a `null` lap time is None. */
  datatype LapRecord = LapRecord(
    lapIndex: int,
    nextCheckpointIndex: int,
    currentLapTime: real,
    lastLapTime: Option<real>,
    bestLapTime: Option<real>,
    prevProgress: real,
    totalCheckpoints: int)

  /** The fields of `raceState`. */
  datatype RaceRecord = RaceRecord(
    points: int,
    finished: bool,
    timeRemaining: real,
    checkpointsCleared: int,
    lapsCompleted: int)

  /** The lap tracker counts CHECKPOINT_COUNT checkpoints and expects one of them next. */
  predicate WellFormed(lap: LapRecord)
  {
    lap.totalCheckpoints == CHECKPOINT_COUNT && 0 <= lap.nextCheckpointIndex < lap.totalCheckpoints
  }

  /** resetRaceState */
  function ResetRace(race: RaceRecord): RaceRecord
  {
    race.(points := 0, finished := false, timeRemaining := RACE_TIME_LIMIT,
          checkpointsCleared := 0, lapsCompleted := 0)
  }

  /** resetLapTracker; `carProgress` is the car's progress at the moment of the reset. */
  function ResetLap(lap: LapRecord, carProgress: real): LapRecord
    requires lap.totalCheckpoints > 0
  {
    lap.(lapIndex := 1, nextCheckpointIndex := 1 % lap.totalCheckpoints, currentLapTime := 0.0,
         lastLapTime := None, bestLapTime := None, prevProgress := carProgress)
  }

  /** The points a crossing is worth. */
  function Reward(isLapReward: bool): int
  {
    if isLapReward then POINTS_PER_LAP else POINTS_PER_CHECKPOINT
  }

  /** awardCheckpointReward (with addPoints): nothing once the race has finished. */
  function Awarded(race: RaceRecord, isLapReward: bool): RaceRecord
  {
    if race.finished then race
    else race.(checkpointsCleared := race.checkpointsCleared + 1,
               points := race.points + Reward(isLapReward),
               lapsCompleted := if isLapReward then race.lapsCompleted + 1 else race.lapsCompleted)
  }

  /** completeLap */
  function CompletedLap(lap: LapRecord): LapRecord
  {
    var last := lap.currentLapTime;
    var best := if lap.bestLapTime.None? || last < lap.bestLapTime.value then Some(last) else lap.bestLapTime;
    lap.(lastLapTime := Some(last), bestLapTime := best, lapIndex := lap.lapIndex + 1, currentLapTime := 0.0)
  }

  /** finishRace: sets the latch once and floors the clock at 0. */
  function FinishedRace(race: RaceRecord): RaceRecord
  {
    if race.finished then race
    else race.(finished := true, timeRemaining := Max(race.timeRemaining, 0.0))
  }

  /**
    updateRaceClock: the new race state, and the reason finishRace is
    called with on this frame (None when it is not called).
   */
  function ClockTicked(race: RaceRecord, delta: real): (RaceRecord, Option<FinishReason>)
  {
    if race.finished then (race, None)
    else
      var ticked := race.(timeRemaining := Max(race.timeRemaining - delta, 0.0));
      if ticked.lapsCompleted >= RACE_LAP_TARGET then (FinishedRace(ticked), Some(Laps))
      else if ticked.timeRemaining <= 0.0 then (FinishedRace(ticked), Some(Timeout))
      else (ticked, None)
  }

  /** The test updateLapTimer applies: moving forward and over the expected checkpoint. */
  predicate CrossesExpected(lap: LapRecord, carProgress: real)
    requires WellFormed(lap)
  {
    ForwardDelta(lap.prevProgress, carProgress) >= 0.0
    && HasCrossedCheckpoint(lap.prevProgress, carProgress, CheckpointProgresses()[lap.nextCheckpointIndex])
  }

  /**
    updateLapTimer for one frame of length `delta`, the car now being at
    `carProgress`: the new lap tracker and race state.
   */
  function LapTimerUpdated(lap: LapRecord, race: RaceRecord, carProgress: real, delta: real): (LapRecord, RaceRecord)
    requires WellFormed(lap)
  {
    if race.finished then (lap, race)
    else
      var timed := lap.(currentLapTime := lap.currentLapTime + delta);
      if CrossesExpected(lap, carProgress) then
        var targetIndex := lap.nextCheckpointIndex;
        var isLapReward := targetIndex == 0;
        var advanced := timed.(nextCheckpointIndex := (targetIndex + 1) % lap.totalCheckpoints);
        var lapped := if isLapReward then CompletedLap(advanced) else advanced;
        (lapped.(prevProgress := carProgress), Awarded(race, isLapReward))
      else
        (timed.(prevProgress := carProgress), race)
  }

  /**
    The bookkeeping that ties the lap tracker to the race state: a lap is
    counted once in each, every cleared checkpoint is worth its points,
    the clock is never negative and the lap times exist once a lap is done.
   */
  predicate Consistent(lap: LapRecord, race: RaceRecord)
  {
    && WellFormed(lap)
    && race.lapsCompleted >= 0
    && lap.lapIndex == race.lapsCompleted + 1
    && race.checkpointsCleared == CHECKPOINT_COUNT * race.lapsCompleted
         + CompletedCheckpoints(lap.nextCheckpointIndex, lap.totalCheckpoints)
    && race.points == POINTS_PER_CHECKPOINT * (race.checkpointsCleared - race.lapsCompleted)
         + POINTS_PER_LAP * race.lapsCompleted
    && race.timeRemaining >= 0.0
    && (lap.lastLapTime.None? <==> race.lapsCompleted == 0)
    && (lap.bestLapTime.None? <==> race.lapsCompleted == 0)
    && (lap.lastLapTime.Some? && lap.bestLapTime.Some? ==> lap.bestLapTime.value <= lap.lastLapTime.value)
  }

  // ----- Lemmas -----

  /** A reset race (placeCarAtStart) starts consistent, on lap 1, expecting checkpoint 1. */
  lemma ResetIsConsistent(lap: LapRecord, race: RaceRecord, carProgress: real)
    requires lap.totalCheckpoints == CHECKPOINT_COUNT
    ensures Consistent(ResetLap(lap, carProgress), ResetRace(race))
    ensures ResetLap(lap, carProgress).nextCheckpointIndex == 1
    ensures !ResetRace(race).finished && ResetRace(race).timeRemaining == RACE_TIME_LIMIT
  {
  }

  /** updateLapTimer keeps the bookkeeping consistent. */
  lemma LapTimerPreservesConsistency(lap: LapRecord, race: RaceRecord, carProgress: real, delta: real)
    requires Consistent(lap, race)
    ensures WellFormed(lap)
    ensures Consistent(LapTimerUpdated(lap, race, carProgress, delta).0, LapTimerUpdated(lap, race, carProgress, delta).1)
  {
    var k := lap.nextCheckpointIndex;
    if !race.finished && CrossesExpected(lap, carProgress) {
      var next := (k + 1) % lap.totalCheckpoints;
      assert CompletedCheckpoints(next, lap.totalCheckpoints) == k;
      if k == 0 {
        assert CompletedCheckpoints(k, lap.totalCheckpoints) == CHECKPOINT_COUNT - 1;
      } else {
        assert CompletedCheckpoints(k, lap.totalCheckpoints) == k - 1;
      }
    }
  }

  /** updateRaceClock keeps the bookkeeping consistent. */
  lemma ClockPreservesConsistency(lap: LapRecord, race: RaceRecord, delta: real)
    requires Consistent(lap, race)
    ensures Consistent(lap, ClockTicked(race, delta).0)
  {
  }

  /**
    Once the race has finished, the per-frame steps (updateLapTimer,
    updateRaceClock, awardCheckpointReward) change nothing and finishRace
    does nothing more, so none of them clears the finished latch. Only the
    reset (resetRaceState, run by placeCarAtStart) clears it.
   */
  lemma FinishedIsTerminal(lap: LapRecord, race: RaceRecord, carProgress: real, delta: real, isLapReward: bool)
    requires WellFormed(lap) && race.finished
    ensures LapTimerUpdated(lap, race, carProgress, delta) == (lap, race)
    ensures ClockTicked(race, delta) == (race, None)
    ensures Awarded(race, isLapReward) == race
    ensures FinishedRace(race) == race
    ensures !ResetRace(race).finished
  {
  }

  /** finishRace is idempotent and sets the latch; on the transition the clock is floored at 0. */
  lemma FinishRaceIdempotent(race: RaceRecord)
    ensures FinishedRace(FinishedRace(race)) == FinishedRace(race)
    ensures FinishedRace(race).finished
    ensures !race.finished ==> FinishedRace(race).timeRemaining >= 0.0
  {
  }

  /**
    Driving backwards across the seam-normalised delta earns nothing: no
    points, no cleared checkpoint, the same expected checkpoint; the lap
    clock still runs and the previous progress still moves on.
   */
  lemma BackwardMotionAwardsNothing(lap: LapRecord, race: RaceRecord, carProgress: real, delta: real)
    requires WellFormed(lap) && !race.finished
    requires ForwardDelta(lap.prevProgress, carProgress) < 0.0
    ensures LapTimerUpdated(lap, race, carProgress, delta).1 == race
    ensures LapTimerUpdated(lap, race, carProgress, delta).0.nextCheckpointIndex == lap.nextCheckpointIndex
    ensures LapTimerUpdated(lap, race, carProgress, delta).0.prevProgress == carProgress
    ensures LapTimerUpdated(lap, race, carProgress, delta).0.currentLapTime == lap.currentLapTime + delta
  {
  }

  /**
    The effect of crossing the expected checkpoint `k`: the next index is
    `(k + 1) % total`, one more checkpoint is cleared, 500 points for the
    start/finish line and 150 otherwise, and a lap is completed exactly
    when `k == 0`, recording the lap's time including this frame.
   */
  lemma CrossingEffects(lap: LapRecord, race: RaceRecord, carProgress: real, delta: real)
    requires WellFormed(lap) && !race.finished
    requires CrossesExpected(lap, carProgress)
    ensures var (l, r) := LapTimerUpdated(lap, race, carProgress, delta);
      && var k := lap.nextCheckpointIndex;
      && l.nextCheckpointIndex == (k + 1) % lap.totalCheckpoints
      && 0 <= l.nextCheckpointIndex < CHECKPOINT_COUNT
      && r.checkpointsCleared == race.checkpointsCleared + 1
      && r.points == race.points + (if k == 0 then 500 else 150)
      && r.lapsCompleted == race.lapsCompleted + (if k == 0 then 1 else 0)
      && l.lapIndex == lap.lapIndex + (if k == 0 then 1 else 0)
      && (k == 0 ==> l.lastLapTime == Some(lap.currentLapTime + delta) && l.currentLapTime == 0.0)
      && (k == 0 ==> l.bestLapTime == CompletedLap(lap.(currentLapTime := lap.currentLapTime + delta)).bestLapTime)
      && (k != 0 ==> l.lastLapTime == lap.lastLapTime && l.bestLapTime == lap.bestLapTime
                     && l.currentLapTime == lap.currentLapTime + delta)
      && l.prevProgress == carProgress
  {
  }

  /**
    A forward frame that does not reach the expected checkpoint earns
    nothing either: the race state and the expected index are unchanged,
    and the previous progress still becomes the current progress.
   */
  lemma ForwardMissAwardsNothing(lap: LapRecord, race: RaceRecord, carProgress: real, delta: real)
    requires WellFormed(lap) && !race.finished
    requires !CrossesExpected(lap, carProgress)
    ensures LapTimerUpdated(lap, race, carProgress, delta).1 == race
    ensures LapTimerUpdated(lap, race, carProgress, delta).0.nextCheckpointIndex == lap.nextCheckpointIndex
    ensures LapTimerUpdated(lap, race, carProgress, delta).0.prevProgress == carProgress
    ensures LapTimerUpdated(lap, race, carProgress, delta).0.currentLapTime == lap.currentLapTime + delta
  {
  }

  /**
    On a running race a frame clears a checkpoint, changes the race state
    and moves the expected index exactly when it crosses the expected
    checkpoint going forward; in every case the previous progress becomes
    the current progress.
   */
  lemma AwardIffCrossing(lap: LapRecord, race: RaceRecord, carProgress: real, delta: real)
    requires WellFormed(lap) && !race.finished
    ensures var (l, r) := LapTimerUpdated(lap, race, carProgress, delta);
      && (r.checkpointsCleared == race.checkpointsCleared + 1 <==> CrossesExpected(lap, carProgress))
      && (r != race <==> CrossesExpected(lap, carProgress))
      && (l.nextCheckpointIndex != lap.nextCheckpointIndex <==> CrossesExpected(lap, carProgress))
      && l.prevProgress == carProgress
  {
  }

  /**
    At most one checkpoint is credited per frame, and a frame earns 0, 150
    or 500 points.
   */
  lemma AtMostOneCheckpointPerFrame(lap: LapRecord, race: RaceRecord, carProgress: real, delta: real)
    requires WellFormed(lap)
    ensures var r := LapTimerUpdated(lap, race, carProgress, delta).1;
      && (r.checkpointsCleared == race.checkpointsCleared || r.checkpointsCleared == race.checkpointsCleared + 1)
      && (r.points - race.points == 0 || r.points - race.points == 150 || r.points - race.points == 500)
      && r.lapsCompleted - race.lapsCompleted <= r.checkpointsCleared - race.checkpointsCleared
  {
  }

  /**
    completeLap: the last lap time is the lap just ended, the best is that
    time when there was none and otherwise the smaller of the two, the lap
    index rises by one and the lap clock restarts.
   */
  lemma CompleteLapEffects(lap: LapRecord)
    ensures var l := CompletedLap(lap);
      && l.lastLapTime == Some(lap.currentLapTime)
      && l.bestLapTime.Some?
      && (lap.bestLapTime.None? ==> l.bestLapTime.value == lap.currentLapTime)
      && (lap.bestLapTime.Some? ==> l.bestLapTime.value == Min(lap.bestLapTime.value, lap.currentLapTime))
      && l.lapIndex == lap.lapIndex + 1
      && l.currentLapTime == 0.0
      && l.nextCheckpointIndex == lap.nextCheckpointIndex
  {
  }

  /** completeLap run once per lap, the i-th lap lasting `times[i]`. */
  function CompleteLaps(lap: LapRecord, times: seq<real>): LapRecord
    decreases |times|
  {
    if |times| == 0 then lap
    else CompleteLaps(CompletedLap(lap.(currentLapTime := times[0])), times[1..])
  }

  /**
    Across laps the best time is the minimum of all completed lap times
    (and of the best already held), the last time is the latest lap, and
    the best time never grows.
   */
  lemma {:induction false} BestLapIsMinimum(lap: LapRecord, times: seq<real>)
    ensures var r := CompleteLaps(lap, times);
      && r.lapIndex == lap.lapIndex + |times|
      && (|times| > 0 ==> r.lastLapTime == Some(times[|times| - 1]) && r.bestLapTime.Some?)
      && (forall i :: 0 <= i < |times| ==> r.bestLapTime.Some? && r.bestLapTime.value <= times[i])
      && (lap.bestLapTime.Some? ==> r.bestLapTime.Some? && r.bestLapTime.value <= lap.bestLapTime.value)
      && (r.bestLapTime == lap.bestLapTime || exists i :: 0 <= i < |times| && r.bestLapTime == Some(times[i]))
    decreases |times|
  {
    if |times| > 0 {
      var first := CompletedLap(lap.(currentLapTime := times[0]));
      var rest := times[1..];
      BestLapIsMinimum(first, rest);
      var r := CompleteLaps(first, rest);
      assert r == CompleteLaps(lap, times);
      forall i | 0 <= i < |times|
        ensures r.bestLapTime.Some? && r.bestLapTime.value <= times[i]
      {
        if i > 0 { assert times[i] == rest[i - 1]; }
      }
      if r.bestLapTime != first.bestLapTime {
        var j :| 0 <= j < |rest| && r.bestLapTime == Some(rest[j]);
        assert rest[j] == times[j + 1];
      }
      if |rest| > 0 {
        assert times[|times| - 1] == rest[|rest| - 1];
      }
    }
  }

  /** From a fresh tracker, the best lap after N laps is exactly the minimum lap time. */
  lemma {:induction false} FreshBestLapIsMinimum(lap: LapRecord, times: seq<real>)
    requires lap.bestLapTime.None? && |times| > 0
    ensures var r := CompleteLaps(lap, times);
      && r.bestLapTime.Some?
      && (forall i :: 0 <= i < |times| ==> r.bestLapTime.value <= times[i])
      && (exists i :: 0 <= i < |times| && r.bestLapTime.value == times[i])
  {
    BestLapIsMinimum(lap, times);
  }

  /**
    updateRaceClock on a running race: the clock drops by `delta` and is
    floored at 0; laps are checked before the clock, so the race ends for
    reason Laps once 3 laps are done and for Timeout only otherwise, once
    the clock reads 0; nothing else changes.
   */
  lemma ClockEffects(race: RaceRecord, delta: real)
    requires !race.finished
    ensures var (r, reason) := ClockTicked(race, delta);
      && r.timeRemaining == Max(race.timeRemaining - delta, 0.0)
      && r.timeRemaining >= 0.0
      && (reason == Some(Laps) <==> race.lapsCompleted >= RACE_LAP_TARGET)
      && (reason == Some(Timeout) <==> race.lapsCompleted < RACE_LAP_TARGET && race.timeRemaining - delta <= 0.0)
      && (r.finished <==> reason.Some?)
      && r.points == race.points && r.lapsCompleted == race.lapsCompleted
      && r.checkpointsCleared == race.checkpointsCleared
  {
  }

  /** 0.05 s left and a 0.1 s frame with laps to go: the clock reads 0 and the race times out. */
  lemma TimeoutExample(race: RaceRecord)
    requires !race.finished && race.timeRemaining == 0.05 && race.lapsCompleted < RACE_LAP_TARGET
    ensures ClockTicked(race, 0.1) == (race.(timeRemaining := 0.0, finished := true), Some(Timeout))
  {
  }

  /**
    From the start line, frames at progress 0.05, 0.063 and 0.07 credit
    exactly one checkpoint (checkpoint 1 at 1/16 = 0.0625), on the second
    frame, for 150 points, after which checkpoint 2 is expected.
   */
  lemma SingleCrossingScenario(lap: LapRecord, race: RaceRecord, delta: real)
    requires lap.totalCheckpoints == CHECKPOINT_COUNT
    ensures var l0, r0 := ResetLap(lap, 0.0), ResetRace(race);
      var (l1, r1) := LapTimerUpdated(l0, r0, 0.05, delta);
      var (l2, r2) := LapTimerUpdated(l1, r1, 0.063, delta);
      var (l3, r3) := LapTimerUpdated(l2, r2, 0.07, delta);
      && r1 == r0 && l1.nextCheckpointIndex == 1
      && r2.points == 150 && r2.checkpointsCleared == 1 && l2.nextCheckpointIndex == 2
      && r3 == r2 && l3.nextCheckpointIndex == 2
  {
    assert CheckpointProgresses()[1] == 0.0625;
    assert CheckpointProgresses()[2] == 0.125;
  }
}

/**
  The module-level race state of src/main.js as objects: the `lapTracker`,
  `raceState` and `carState` records, and the functions that update them in
  place (updateLapTimer, awardCheckpointReward, completeLap, finishRace,
  updateRaceClock, the resets, recalculateCarProgress). UpdateLapTimer and
  UpdateRaceClock match their RaceRules functions and keep Session.Valid,
  the bookkeeping invariant; RecalculateCarProgress keeps it, and
  PlaceCarAtStart establishes it. AwardCheckpointReward, CompleteLap,
  FinishRace and the two resets are the helpers those steps call: each
  matches its RaceRules function, and none keeps Valid on its own.
 */
module RaceSession {
  import opened Optional
  import opened Helpers
  import opened Checkpoints
  import opened RaceRules
  import opened Progress
  import Driving

  /** The `lapTracker` record. */
  class LapTracker {
    var lapIndex: int
    var nextCheckpointIndex: int
    var currentLapTime: real
    var lastLapTime: Option<real>
    var bestLapTime: Option<real>
    var prevProgress: real
    const totalCheckpoints: int

    constructor ()
      ensures Snapshot() == LapRecord(1, 1, 0.0, None, None, 0.0, CHECKPOINT_COUNT)
    {
      lapIndex, nextCheckpointIndex, currentLapTime := 1, 1, 0.0;
      lastLapTime, bestLapTime, prevProgress := None, None, 0.0;
      totalCheckpoints := CHECKPOINT_COUNT;
    }

    function Snapshot(): LapRecord
      reads this
    {
      LapRecord(lapIndex, nextCheckpointIndex, currentLapTime, lastLapTime, bestLapTime, prevProgress, totalCheckpoints)
    }
  }

  /** The `raceState` record. */
  class RaceState {
    var points: int
    var finished: bool
    var timeRemaining: real
    var checkpointsCleared: int
    var lapsCompleted: int

    constructor ()
      ensures Snapshot() == RaceRecord(0, false, RACE_TIME_LIMIT, 0, 0)
    {
      points, finished, timeRemaining := 0, false, RACE_TIME_LIMIT;
      checkpointsCleared, lapsCompleted := 0, 0;
    }

    function Snapshot(): RaceRecord
      reads this
    {
      RaceRecord(points, finished, timeRemaining, checkpointsCleared, lapsCompleted)
    }
  }

  /** The three records the race rules share, owned by one game loop. */
  class Session {
    const lapTracker: LapTracker
    const raceState: RaceState
    const carState: Driving.CarState

    /** The lap tracker and race state agree, and both progress values lie in [0, 1]. */
    ghost predicate Valid()
      reads this, lapTracker, raceState, carState
    {
      && Consistent(lapTracker.Snapshot(), raceState.Snapshot())
      && 0.0 <= carState.progress <= 1.0
      && 0.0 <= lapTracker.prevProgress <= 1.0
    }

    /** The records as the script creates them, before placeCarAtStart. */
    constructor ()
      ensures Valid()
      ensures fresh(lapTracker) && fresh(raceState) && fresh(carState)
      ensures lapTracker.Snapshot() == LapRecord(1, 1, 0.0, None, None, 0.0, CHECKPOINT_COUNT)
      ensures raceState.Snapshot() == RaceRecord(0, false, RACE_TIME_LIMIT, 0, 0)
      ensures carState.progress == 0.0 && carState.speed == 0.0 && carState.heading == 0.0
    {
      lapTracker := new LapTracker();
      raceState := new RaceState();
      carState := new Driving.CarState();
    }

    /** awardCheckpointReward with addPoints: the points total, cleared checkpoints and laps. */
    method AwardCheckpointReward(isLapReward: bool)
      modifies raceState
      ensures raceState.Snapshot() == Awarded(old(raceState.Snapshot()), isLapReward)
    {
      if raceState.finished { return; }
      var reward := Reward(isLapReward);
      raceState.checkpointsCleared := raceState.checkpointsCleared + 1;
      raceState.points := raceState.points + reward;
      if isLapReward { raceState.lapsCompleted := raceState.lapsCompleted + 1; }
    }

    /** completeLap */
    method CompleteLap()
      modifies lapTracker
      ensures lapTracker.Snapshot() == CompletedLap(old(lapTracker.Snapshot()))
    {
      lapTracker.lastLapTime := Some(lapTracker.currentLapTime);
      if lapTracker.bestLapTime.None? || lapTracker.lastLapTime.value < lapTracker.bestLapTime.value {
        lapTracker.bestLapTime := lapTracker.lastLapTime;
      }
      lapTracker.lapIndex := lapTracker.lapIndex + 1;
      lapTracker.currentLapTime := 0.0;
    }

    /** finishRace; its reason only selects the summary text, so it is not a parameter here. */
    method FinishRace()
      modifies raceState
      ensures raceState.Snapshot() == FinishedRace(old(raceState.Snapshot()))
    {
      if raceState.finished { return; }
      raceState.finished := true;
      raceState.timeRemaining := Max(raceState.timeRemaining, 0.0);
    }

    /** updateRaceClock; `reason` is the reason finishRace is called with, if it is. */
    method UpdateRaceClock(delta: real) returns (reason: Option<FinishReason>)
      requires Valid()
      modifies raceState
      ensures (raceState.Snapshot(), reason) == ClockTicked(old(raceState.Snapshot()), delta)
      ensures Valid()
    {
      ClockPreservesConsistency(lapTracker.Snapshot(), raceState.Snapshot(), delta);
      if raceState.finished { return None; }
      raceState.timeRemaining := Max(raceState.timeRemaining - delta, 0.0);
      if raceState.lapsCompleted >= RACE_LAP_TARGET {
        FinishRace();
        reason := Some(Laps);
      } else if raceState.timeRemaining <= 0.0 {
        FinishRace();
        reason := Some(Timeout);
      } else {
        reason := None;
      }
    }

    /** updateLapTimer: the lap clock, the crossing test and its award. */
    method UpdateLapTimer(delta: real)
      requires Valid()
      modifies lapTracker, raceState
      ensures (lapTracker.Snapshot(), raceState.Snapshot())
           == LapTimerUpdated(old(lapTracker.Snapshot()), old(raceState.Snapshot()), carState.progress, delta)
      ensures Valid()
    {
      LapTimerPreservesConsistency(lapTracker.Snapshot(), raceState.Snapshot(), carState.progress, delta);
      if raceState.finished { return; }
      lapTracker.currentLapTime := lapTracker.currentLapTime + delta;

      var prevProgress := lapTracker.prevProgress;
      var currentProgress := carState.progress;
      var forwardDelta := currentProgress - prevProgress;
      if forwardDelta < -0.5 {
        forwardDelta := forwardDelta + 1.0;
      } else if forwardDelta > 0.5 {
        forwardDelta := forwardDelta - 1.0;
      }

      if forwardDelta >= 0.0 {
        var targetIndex := lapTracker.nextCheckpointIndex;
        var targetProgress := CheckpointProgresses()[targetIndex];
        if HasCrossedCheckpoint(prevProgress, currentProgress, targetProgress) {
          var isLapReward := targetIndex == 0;
          AwardCheckpointReward(isLapReward);
          lapTracker.nextCheckpointIndex := (targetIndex + 1) % lapTracker.totalCheckpoints;
          if isLapReward { CompleteLap(); }
        }
      }

      lapTracker.prevProgress := currentProgress;
    }

    /** resetRaceState (the effects list and HUD are presentation). */
    method ResetRaceState()
      modifies raceState
      ensures raceState.Snapshot() == ResetRace(old(raceState.Snapshot()))
    {
      raceState.points := 0;
      raceState.finished := false;
      raceState.timeRemaining := RACE_TIME_LIMIT;
      raceState.checkpointsCleared := 0;
      raceState.lapsCompleted := 0;
    }

    /** resetLapTracker */
    method ResetLapTracker()
      requires lapTracker.totalCheckpoints == CHECKPOINT_COUNT
      modifies lapTracker
      ensures lapTracker.Snapshot() == ResetLap(old(lapTracker.Snapshot()), carState.progress)
    {
      lapTracker.lapIndex := 1;
      lapTracker.nextCheckpointIndex := 1 % lapTracker.totalCheckpoints;
      lapTracker.currentLapTime := 0.0;
      lapTracker.lastLapTime := None;
      lapTracker.bestLapTime := None;
      lapTracker.prevProgress := carState.progress;
    }

    /**
      placeCarAtStart: the car stops at progress 0 facing `startHeading` (the
      heading of the track's tangent at progress 0), then both records reset.
     */
    method PlaceCarAtStart(startHeading: real)
      requires lapTracker.totalCheckpoints == CHECKPOINT_COUNT
      modifies carState, raceState, lapTracker
      ensures Valid()
      ensures carState.speed == 0.0 && carState.progress == 0.0 && carState.heading == startHeading
      ensures raceState.Snapshot() == ResetRace(old(raceState.Snapshot()))
      ensures lapTracker.Snapshot() == ResetLap(old(lapTracker.Snapshot()), 0.0)
      ensures lapTracker.nextCheckpointIndex == 1 && !raceState.finished
    {
      carState.heading := startHeading;
      carState.speed := 0.0;
      carState.progress := 0.0;
      ResetRaceState();
      ResetLapTracker();
      ResetIsConsistent(old(lapTracker.Snapshot()), old(raceState.Snapshot()), 0.0);
    }

    /**
      recalculateCarProgress over the distances from the car to the track's
      dense samples: the progress becomes that of the first nearest sample,
      and the distance to it is returned.
     */
    method RecalculateCarProgress(distances: seq<real>) returns (minDistance: real)
      requires Valid()
      requires |distances| >= 2
      modifies carState
      ensures exists i :: IsFirstMinimum(distances, i)
                && carState.progress == SampleProgress(i, |distances|) && minDistance == distances[i]
      ensures carState.speed == old(carState.speed) && carState.heading == old(carState.heading)
      ensures Valid()
    {
      var closestIndex, found := ClosestSample(distances);
      carState.progress := closestIndex as real / (|distances| - 1) as real;
      minDistance := found.value;
      assert IsFirstMinimum(distances, closestIndex)
             && carState.progress == SampleProgress(closestIndex, |distances|);
    }
  }
}

# Race rules of the Codex 3D racing game, in Dafny

This project models the race-simulation rules of a browser arcade racing game. A player drives
around a closed circuit and must pass 16 evenly spaced checkpoints in order. Each checkpoint is
worth 150 points. Checkpoint 0 is also the start/finish line: crossing it is worth 500 points and
completes a lap. The race ends after 3 laps or when the 210-second clock runs out, and once it has
ended nothing is scored any more. AI traffic cars pick a lane and a speed from where the player
and the other traffic cars are, measured from each traffic car's point on the track's centreline. The game has two maps, looked up by id.

The model covers the checkpoint and lap state machine, the race clock and its terminal latch, the
nearest-sample progress search, the player's speed and steering under input, the off-track speed
penalty, the traffic lane and speed targets, and the map table.

Modules (one per component; every file sits directly in this directory):

- `optional.dfy` (`Optional`): the option type. It stands in for the source's `null` lap times and for `Infinity` as a distance.
- `helpers.dfy` (`Helpers`): `clamp` and `smoothApproach`. `smoothApproach` moves a value a given fraction of the way to its target. Here that fraction is a parameter in [0, 1); the source computes it as `1 - exp(-rate * dt)`.
- `checkpoints.dfy` (`Checkpoints`): the checkpoint progress values and the seam-aware crossing test. Also the per-frame progress delta, normalised across the 1 -> 0 seam (the point where progress wraps from 1 back to 0), and the index of completed checkpoints.
- `race_rules.dfy` (`RaceRules`): the `lapTracker` and `raceState` records as values, and the effect of each operation on them as a function. These functions specify the methods of `RaceSession`, and the lemmas about the race rules live here.
- `race_session.dfy` (`RaceSession`): the same records as objects. Their functions become methods that update fields in place. `UpdateLapTimer` and `UpdateRaceClock` match their `RaceRules` functions and keep the bookkeeping invariant `Session.Valid`. `RecalculateCarProgress` keeps it, and `PlaceCarAtStart` establishes it. `AwardCheckpointReward`, `CompleteLap`, `FinishRace` and the two resets are the helpers those steps call. Each matches its `RaceRules` function, and none keeps `Valid` on its own.
- `progress.dfy` (`Progress`): the linear argmin scan over the distances to the track's dense samples.
- `driving.dfy` (`Driving`): the `carState` object, speed and steering under input, and the off-track penalty.
- `traffic.dfy` (`Traffic`): target-lane and target-speed selection, and the relaxation toward those targets.
- `maps.dfy` (`Maps`): the map table and `getMapById`.

Numbers are Dafny `real`s, so arithmetic is exact. Points and counters are `int`s.

Notes on the code's behaviour:

- Progress from the nearest-sample search is `closestIndex / (n - 1)`, so it lies in [0, 1] and can be exactly 1. The track has 601 dense samples (`getSpacedPoints(600)`).
- The code never checks how many control points a track has.
- `finishRace(reason)` uses the reason only for the summary text. The model reports the reason as the result of the clock step.

## Model

| member | source | states |
|---|---|---|
| Helpers.Clamp | src/main.js:545-547 | The result is never above `hi`. When `lo <= hi` it is the value itself inside [lo, hi] and otherwise the bound the value passed. When `hi < lo` it is `hi`. |
| Helpers.SmoothApproach | src/main.js:549-551 | For a factor in [0, 1) the result lies between current and target. It equals the target only when current already did. A zero factor leaves the value unchanged. |
| Checkpoints.CheckpointProgresses | src/main.js:130-136 | There are 16 checkpoint progress values, starting at 0, strictly increasing, all in [0, 1). |
| Checkpoints.HasCrossedCheckpoint | src/main.js:951-954 | The two-case range test, as written. CrossingIsForwardArc and SeamCrossingExamples state its meaning. |
| Checkpoints.CrossingIsForwardArc | src/main.js:951-954 | The two-case crossing test is true exactly when the target lies on the forward arc from the previous to the current progress (progress values in [0, 1)). |
| Checkpoints.SeamCrossingExamples | src/main.js:951-954 | Going from 0.98 to 0.02 crosses checkpoint 0 but not 0.5. |
| Checkpoints.ForwardDistance | src/main.js:951-954 | The forward distance along the loop is in [0, 1) and differs from the raw difference by 0 or one lap. |
| Checkpoints.ForwardDelta | src/main.js:962-964 | The normalised delta differs from `current - previous` by at most one lap. It lies in [-0.5, 0.5] for progress in [0, 1], and it is the raw delta when that is already within half a lap. |
| Checkpoints.CompletedCheckpoints | src/main.js:562-564 | The count of completed checkpoints lies in [0, total) and is the index just before the next expected checkpoint, cyclically. |
| RaceRules.ResetRace | src/main.js:662-667 | resetRaceState's five field resets, as written. Its meaning is stated by ResetIsConsistent and FinishedIsTerminal. |
| RaceRules.ResetLap | src/main.js:706-714 | resetLapTracker's field resets, with prevProgress taken from the car, as written. Its meaning is stated by ResetIsConsistent. |
| RaceRules.Awarded | src/main.js:647-660 | awardCheckpointReward with addPoints, as written. Its meaning is stated by CrossingEffects, AtMostOneCheckpointPerFrame and FinishedIsTerminal. |
| RaceRules.CompletedLap | src/main.js:716-722 | completeLap, as written. Its meaning is stated by CompleteLapEffects, BestLapIsMinimum and FreshBestLapIsMinimum. |
| RaceRules.FinishedRace | src/main.js:683-686 | finishRace's state change, as written. Its meaning is stated by FinishRaceIdempotent and FinishedIsTerminal. |
| RaceRules.ClockTicked | src/main.js:698-704 | updateRaceClock, as written, returning the finish reason. Its meaning is stated by ClockEffects, ClockPreservesConsistency and TimeoutExample. |
| RaceRules.CrossesExpected | src/main.js:962-969 | The forward-delta test followed by the crossing test of the expected checkpoint, as written. Its meaning is stated by AwardIffCrossing. |
| RaceRules.LapTimerUpdated | src/main.js:956-979 | updateLapTimer, as written. Its meaning is stated by LapTimerPreservesConsistency, CrossingEffects, ForwardMissAwardsNothing, BackwardMotionAwardsNothing, AwardIffCrossing and AtMostOneCheckpointPerFrame. |
| RaceRules.ResetIsConsistent | src/main.js:724-735 | After both resets the records are consistent, checkpoint 1 is expected next, and the race runs with the full 210 s. |
| RaceRules.LapTimerPreservesConsistency | src/main.js:956-979 | updateLapTimer keeps the invariant. The invariant is: next index in [0, 16); `lapIndex = laps + 1`; `cleared = 16 * laps + completed`; `points = 150 * (cleared - laps) + 500 * laps`; clock >= 0; lap times present iff a lap is done; best <= last. |
| RaceRules.ClockPreservesConsistency | src/main.js:698-704 | updateRaceClock keeps the same invariant. |
| RaceRules.FinishedIsTerminal | src/main.js:653-704 | Once finished, updateLapTimer, updateRaceClock and awardCheckpointReward change nothing, and finishRace is a no-op. So no per-frame step clears the finished latch; only resetRaceState does. |
| RaceRules.FinishRaceIdempotent | src/main.js:683-686 | finishRace applied twice equals finishRace applied once. It always leaves the race finished. When it finishes a running race, the clock is floored at 0. |
| RaceRules.BackwardMotionAwardsNothing | src/main.js:962-977 | With a negative normalised delta the race state is unchanged. The expected index stays the same, the previous progress becomes the current progress, and the lap clock still advances. |
| RaceRules.CrossingEffects | src/main.js:966-974 | Crossing target `k` sets the next index to `(k+1) % 16` (in [0, 16)) and clears one more checkpoint. It adds 500 points if `k = 0` and 150 otherwise. It completes a lap only for `k = 0`, recording the lap time that includes this frame and updating the best time as completeLap does. Otherwise the last and best times are kept. |
| RaceRules.ForwardMissAwardsNothing | src/main.js:966-977 | A frame that does not cross the expected checkpoint going forward leaves the race state and the expected index unchanged. The previous progress still becomes the current progress, and the lap clock still advances. |
| RaceRules.AwardIffCrossing | src/main.js:956-977 | On a running race, a frame clears a checkpoint, changes the race state and moves the expected index iff it crosses the expected checkpoint going forward. The previous progress always becomes the current progress. |
| RaceRules.AtMostOneCheckpointPerFrame | src/main.js:966-975 | One frame clears at most one checkpoint, earns 0, 150 or 500 points, and completes a lap only with a cleared checkpoint. |
| RaceRules.CompleteLapEffects | src/main.js:716-722 | The last lap time becomes the lap just ended. The best becomes that time when there was none, otherwise the minimum of the two. The lap index rises by 1 and the lap clock resets to 0. |
| RaceRules.BestLapIsMinimum | src/main.js:716-722 | Across any sequence of laps: the best time is at most every lap time and at most the earlier best. It equals one of them. The last time is the latest lap, and the lap index rises by the number of laps. |
| RaceRules.FreshBestLapIsMinimum | src/main.js:716-722 | From a tracker with no best time, after N >= 1 laps the best time is exactly the minimum lap time. |
| RaceRules.ClockEffects | src/main.js:698-704 | The clock becomes `max(t - dt, 0)`, which is never negative. The race finishes for Laps iff 3 laps are done; for Timeout iff fewer are done and `t - dt <= 0`. Otherwise it keeps running, and the other fields are unchanged. |
| RaceRules.TimeoutExample | src/main.js:698-704 | With t = 0.05 and dt = 0.1 and laps to go, the clock reads 0 and the race times out. |
| RaceRules.SingleCrossingScenario | src/main.js:956-979 | From the start, frames at 0.05, 0.063 and 0.07 credit exactly one checkpoint (1/16, on the second frame) for 150 points. Checkpoint 2 is then expected. |
| RaceSession.Session.constructor | src/main.js:505-529 | The records start as declared (lap 1, checkpoint 1 next, 0 points, 210 s, the car stopped at heading 0 and progress 0) and are consistent. |
| RaceSession.Session.AwardCheckpointReward | src/main.js:647-660 | The race state becomes `Awarded(old, isLapReward)`. |
| RaceSession.Session.CompleteLap | src/main.js:716-722 | The lap tracker becomes `CompletedLap(old)`. |
| RaceSession.Session.FinishRace | src/main.js:683-696 | The race state becomes `FinishedRace(old)`. |
| RaceSession.Session.UpdateRaceClock | src/main.js:698-704 | Race state and finish reason are `ClockTicked(old, dt)`, and the invariant is kept. |
| RaceSession.Session.UpdateLapTimer | src/main.js:956-979 | Lap tracker and race state are `LapTimerUpdated(old, old, progress, dt)`, and the invariant is kept. |
| RaceSession.Session.ResetRaceState | src/main.js:662-667 | The race state becomes `ResetRace(old)`. |
| RaceSession.Session.ResetLapTracker | src/main.js:706-714 | The lap tracker becomes `ResetLap(old, carProgress)`. |
| RaceSession.Session.PlaceCarAtStart | src/main.js:724-735 | The car stops at progress 0, both records reset, and the invariant holds. |
| RaceSession.Session.RecalculateCarProgress | src/main.js:833-846 | Progress becomes `i / (n - 1)` for the first sample `i` at minimal distance, and that distance is returned. Speed and heading are unchanged and the invariant is kept. |
| Progress.ClosestSample | src/main.js:834-843 | For a non-empty list the index is the first one attaining the minimum (strict `<`) and the distance is that minimum. For an empty list it stays at index 0 with distance Infinity. |
| Progress.FirstMinimumIsUnique | src/main.js:839-842 | There is at most one first minimum, so the argmin is determined. |
| Progress.SampleProgress | src/main.js:844 | `i / (n - 1)` lies in [0, 1]. It is 0 only for the first sample and 1 only for the last. |
| Driving.SpeedAfterInput | src/main.js:859-863 | After the input step the speed lies in [maxReverseSpeed, maxSpeed] = [-30, 120]. |
| Driving.ThrottleEffects | src/main.js:859-863 | From a speed in range: forward gives `min(v + 55 dt, 120)` and never slows the car. Backward gives `max(v - 65 dt, -30)` and never speeds it up. No input moves the speed toward 0 without changing its sign. |
| Driving.TurnRate | src/main.js:865-866 | The turn rate lies in [0.98, 2.8] rad/s. |
| Driving.SteeringDelta | src/main.js:865-866 | The turn for a frame of length dt lies in [0.98 dt, 2.8 dt]. |
| Driving.SteeringIgnoresDirection | src/main.js:865-866 | The turn depends on \|speed\| only, so reversing does not invert steering. |
| Driving.HeadingAfterInput | src/main.js:867-868 | Left adds the turn, right subtracts it, and both together leave the heading unchanged. |
| Driving.OffTrackSpeed | src/main.js:877-878 | On the track (distance <= 8.2) the speed is kept. Off it the penalty never raises the speed's magnitude and never reverses it. In the soft band (8.2 < distance <= 8.2 x 1.35) it stays between half the speed and the speed. |
| Driving.CarState.ApplyInput | src/main.js:859-868 | Speed and heading become `SpeedAfterInput` and `HeadingAfterInput` of the old values. Progress is unchanged. |
| Driving.CarState.ApplyOffTrackPenalty | src/main.js:876-878 | Speed becomes `OffTrackSpeed` of the old speed. Heading and progress are unchanged. |
| Traffic.EvasiveSide | src/main.js:918-919 | The side is +1 or -1: away from the player's side, or toward the home lane's side (+1 for a centred lane) when the player is within 0.3 laterally. |
| Traffic.SpeedTarget | src/main.js:911-930 | The base speed capped at 0.55 of it for the player window and at 0.7 of it for a blocking car, as written. Its meaning is stated by SpeedTargetChoices and SelectTargets. |
| Traffic.LaneTarget | src/main.js:910-933 | The home lane plus 1.2 times the evasive side when the player is in the window, minus 0.8 times the sign of each blocking car's lateral gap, as written. Its meaning is stated by LaneNudgesBound and SelectTargets. |
| Traffic.SpeedTargetChoices | src/main.js:911-930 | The target speed is baseSpeed, 0.7 baseSpeed or 0.55 baseSpeed, and never above baseSpeed. For a non-negative baseSpeed the player's cap takes precedence. |
| Traffic.LaneNudgesBound | src/main.js:923-933 | Other cars move the lane target by at most 0.8 each, and not at all when none blocks ahead. |
| Traffic.SelectTargets | src/main.js:909-933 | The loop's target speed is the base speed capped for the player window (x0.55) and for any blocking car (x0.7). Its target lane is home lane + 1.2 x evasive side (player in window) - 0.8 x sign of each blocking car's lateral gap. |
| Traffic.TrafficCar.constructor | src/main.js:485-492 | A spawned car starts in its home lane at its base speed. |
| Traffic.TrafficCar.Steer | src/main.js:935-937 | The lane target is clamped to ±(8.2 - 1.4), and speed and lane offset relax toward their targets. A car within the lane limit stays within it, and one at or below base speed stays so. |
| Traffic.UpdateTrafficTargets | src/main.js:909-937 | For every traffic car, the new lane target, speed and lane offset are as its selection and relaxation say. No car's update affects another's. |
| Maps.FindIndex | src/maps.js:113 | The index found has the id and no earlier map has it. None means no map has the id. |
| Maps.GetMapById | src/maps.js:112-114 | The result is always an element of `maps`. It is the first map with the id when one has it, and `maps[0]` otherwise. |
| Maps.IdsAreDistinct | src/maps.js:4-108 | The ids 'aurora-ring' and 'sunset-canyon' are distinct. |
| Maps.NineControlPoints | src/maps.js:4-108 | Every map's loop has 9 control points, all with y = 0. |
| Maps.LookupByOwnId | src/maps.js:112-114 | Looking up a map's own id returns that map. |
| Maps.DefaultLookup | src/maps.js:110-114 | `getMapById(defaultMapId)` is `maps[0]`. |
| Maps.UnknownIdFallsBack | src/maps.js:113 | An id not in the table gives `maps[0]`. |

## Left out

- Scene construction, rendering, camera, lights, scenery, the HUD and `formatTime`, point-burst effects and the finish overlay. These are presentation through a graphics library and the DOM. `addPoints` is modelled for its points total only.
- `CatmullRomCurve3` queries (`getPointAt`, `getTangentAt`, `getSpacedPoints`, `getLength`). These are library calls, so the model takes their results as inputs: distances to the dense samples, and traffic projections onto tangent and normal.
- Position integration in `updateCar`, the finished-race coasting branch, `syncCarStateFromVelocity` and collision resolution (`resolvePlayerNpcCollision`, `resolveNpcCollision`, `handleCollisions`). These are vector geometry with `sqrt`, `atan2` and normalisation, and one pass proves no non-penetration.
- The first pass of `updateTraffic`: progress integration with floating-point `%`, and tangent/normal derivation. The same goes for the world position and velocity written at the end of its second pass.
- Input listeners, the `requestAnimationFrame` loop, the `0.1 s` frame-time cap in `animate`, and resizing. These are browser I/O; `dt` and the held keys are parameters.
- `Math.exp` in `smoothApproach`: the factor `1 - exp(-rate * dt)` is a parameter in [0, 1). No rate-specific value is modelled.
- `Math.random` scaling of traffic car meshes. It is decorative.
- Map fields other than id, name and control points (tube segments, radius, materials, fog, scenery, traffic presets). They only feed rendering. The game script also builds its own track and presets and does not read the map table.
- IEEE floating point: reals are exact, so for example the lane limit is exactly 6.8. NaN, `-0` and Infinity arithmetic are not modelled, except Infinity as the starting minimum distance.
- RaceSession.Session.RecalculateCarProgress: requires at least 2 samples. With 1 sample the source divides 0 by 0, and the track always supplies 601.
- RaceSession.Session.FinishRace: takes no reason, because the source uses the reason only for the summary text. The clock step returns the reason instead.
- Checkpoints.CrossingIsForwardArc: stated for progress in [0, 1). Progress can also be exactly 1. The start line at 0 is then credited on the next frame, whose previous progress is 1 and whose current progress is past 0. `RaceRules.LapTimerUpdated` itself accepts any progress.
- RaceSession.Session.UpdateLapTimer, UpdateRaceClock and RecalculateCarProgress: require `Session.Valid`, the bookkeeping invariant that the constructor and `PlaceCarAtStart` establish and every step keeps. The source assumes the same state silently.
- `updateHUD` and the checkpoint-effect disposal in `resetRaceState`: display only. Resetting `carVelocity` belongs to the collision code, which is not part of this model.
- Traffic inputs are centreline-relative, as in the source. The player's projection is the player's position minus the traffic car's centreline point (the curve point at its progress). Another car's projection is the difference of the two centreline points. So lane offsets never enter the proximity tests. A car in lane +2.6 still slows for a player at lateral -3.0, and a blocking car's lateral gap is close to 0 whatever lanes the two cars use.

/**
  The behaviour layer of updateTraffic (src/main.js): each traffic car picks
  a target lane offset and a target speed from where the player and the
  other traffic cars are relative to its point on the track's centreline,
  then relaxes its lane offset and speed toward them. Positions enter as
  projections onto the tangent (forward) and normal (lateral) at that
  centreline point, which the source computes with dot products on the
  track curve's geometry.
 */
module Traffic {
  import opened Helpers
  import Driving

  /** A lane target may not come closer than 1.4 to the track edge. */
  const LANE_LIMIT: real := Driving.TRACK_HALF_WIDTH - 1.4

  /**
    An offset measured from a traffic car's centreline point (the curve
    point at the car's progress, not the car itself), along the tangent
    and the normal there. For the player it is the player's position minus
    that point; for another traffic car it is the other car's centreline
    point minus this one, so neither car's lane offset enters it.
   */
  datatype Projection = Projection(forward: real, lateral: real)

  /** The player is in the avoidance window: from 2 behind to 12 ahead, within 3.5 to the side. */
  predicate PlayerInWindow(player: Projection)
  {
    -2.0 < player.forward < 12.0 && Abs(player.lateral) < 3.5
  }

  /** Another traffic car is close ahead: between 0 and 8 ahead, within 2.4 to the side. */
  predicate BlocksAhead(gap: Projection)
  {
    0.0 < gap.forward < 8.0 && Abs(gap.lateral) < 2.4
  }

  /**
    The side a car swerves to for the player: away from the player's side,
    or, with the player nearly centred (within 0.3), toward the car's home
    lane side (the right, +1, for a centred home lane).
   */
  function EvasiveSide(lateral: real, baseLaneOffset: real): (side: int)
    ensures side == 1 || side == -1
    ensures Abs(lateral) >= 0.3 && lateral > 0.0 ==> side == -1
    ensures Abs(lateral) >= 0.3 && lateral < 0.0 ==> side == 1
    ensures Abs(lateral) < 0.3 && baseLaneOffset < 0.0 ==> side == -1
    ensures Abs(lateral) < 0.3 && baseLaneOffset >= 0.0 ==> side == 1
  {
    var evasiveDirection := if lateral >= 0.0 then -1 else 1;
    if Abs(lateral) < 0.3 then Sign(if baseLaneOffset == 0.0 then 1.0 else baseLaneOffset)
    else evasiveDirection
  }

  /** The lane bias for the player: 1.2 toward the evasive side when the player is in the window. */
  function PlayerBias(player: Projection, baseLaneOffset: real): real
  {
    if PlayerInWindow(player) then EvasiveSide(player.lateral, baseLaneOffset) as real * 1.2 else 0.0
  }

  /** The nudge other car `j` gives car `self`: 0.8 times the sign of its lateral gap, when it blocks. */
  function Nudge(gap: Projection, j: int, self: int): real
  {
    if j != self && BlocksAhead(gap) then Sign(gap.lateral) as real * 0.8 else 0.0
  }

  /** The nudges of all other cars, summed in index order. */
  function LaneNudges(others: seq<Projection>, self: int): real
  {
    if |others| == 0 then 0.0
    else LaneNudges(others[..|others| - 1], self) + Nudge(others[|others| - 1], |others| - 1, self)
  }

  /** Some other car blocks ahead. */
  predicate AnyBlocking(others: seq<Projection>, self: int)
  {
    exists j :: 0 <= j < |others| && j != self && BlocksAhead(others[j])
  }

  /** The target lane before clamping: home lane, player bias, minus the nudges. */
  function LaneTarget(baseLaneOffset: real, player: Projection, others: seq<Projection>, self: int): real
  {
    baseLaneOffset + PlayerBias(player, baseLaneOffset) - LaneNudges(others, self)
  }

  /** The target speed: base speed, capped at 0.55 of it near the player and at 0.7 of it behind a car. */
  function SpeedTarget(baseSpeed: real, playerNear: bool, blocked: bool): real
  {
    var afterPlayer := if playerNear then Min(baseSpeed, baseSpeed * 0.55) else baseSpeed;
    if blocked then Min(afterPlayer, baseSpeed * 0.7) else afterPlayer
  }

  /**
    The target speed is the base speed, 0.7 of it or 0.55 of it, and never
    above the base speed; for a non-negative base speed the player's cap
    wins over the other cars'.
   */
  lemma SpeedTargetChoices(baseSpeed: real, playerNear: bool, blocked: bool)
    ensures var s := SpeedTarget(baseSpeed, playerNear, blocked);
      && (s == baseSpeed || s == baseSpeed * 0.7 || s == baseSpeed * 0.55)
      && s <= baseSpeed
      && (baseSpeed >= 0.0 ==>
            s == (if playerNear then baseSpeed * 0.55 else if blocked then baseSpeed * 0.7 else baseSpeed))
  {
  }

  /** Each blocking car moves the lane target by at most 0.8. */
  lemma {:induction false} LaneNudgesBound(others: seq<Projection>, self: int)
    ensures Abs(LaneNudges(others, self)) <= 0.8 * |others| as real
    ensures !AnyBlocking(others, self) ==> LaneNudges(others, self) == 0.0
    decreases |others|
  {
    if |others| > 0 {
      var prefix := others[..|others| - 1];
      LaneNudgesBound(prefix, self);
      if !AnyBlocking(others, self) {
        assert !AnyBlocking(prefix, self) by {
          forall j | 0 <= j < |prefix| && j != self
            ensures !BlocksAhead(prefix[j])
          {
            assert prefix[j] == others[j];
          }
        }
      }
    }
  }

  /**
    The selection loop for car `self`: start at the home lane and base
    speed, react to the player, then to every other car in turn.
   */
  method SelectTargets(baseLaneOffset: real, baseSpeed: real, player: Projection, others: seq<Projection>, self: int)
    returns (targetLane: real, targetSpeed: real)
    ensures targetSpeed == SpeedTarget(baseSpeed, PlayerInWindow(player), AnyBlocking(others, self))
    ensures targetLane == LaneTarget(baseLaneOffset, player, others, self)
  {
    targetLane := baseLaneOffset;
    targetSpeed := baseSpeed;
    if PlayerInWindow(player) {
      targetSpeed := Min(targetSpeed, baseSpeed * 0.55);
      var preferred := EvasiveSide(player.lateral, baseLaneOffset);
      targetLane := targetLane + preferred as real * 1.2;
    }

    var j := 0;
    while j < |others|
      invariant 0 <= j <= |others|
      invariant targetLane == baseLaneOffset + PlayerBias(player, baseLaneOffset) - LaneNudges(others[..j], self)
      invariant targetSpeed == SpeedTarget(baseSpeed, PlayerInWindow(player), AnyBlocking(others[..j], self))
    {
      var gap := others[j];
      assert others[..j + 1][..j] == others[..j];
      if j != self && BlocksAhead(gap) {
        targetSpeed := Min(targetSpeed, baseSpeed * 0.7);
        targetLane := targetLane - Sign(gap.lateral) as real * 0.8;
      }
      assert AnyBlocking(others[..j + 1], self) <==> AnyBlocking(others[..j], self) || (j != self && BlocksAhead(gap)) by {
        if AnyBlocking(others[..j + 1], self) {
          var k :| 0 <= k < j + 1 && k != self && BlocksAhead(others[..j + 1][k]);
          if k < j { assert others[..j][k] == others[..j + 1][k]; }
        }
        if AnyBlocking(others[..j], self) {
          var k :| 0 <= k < j && k != self && BlocksAhead(others[..j][k]);
          assert others[..j + 1][k] == others[..j][k];
        }
      }
      j := j + 1;
    }
    assert others[..j] == others;
  }

  /** A traffic car's controller state (the `trafficCars` entries). */
  class TrafficCar {
    const baseLaneOffset: real
    const baseSpeed: real
    var laneOffset: real
    var targetLaneOffset: real
    var speed: real

    /** spawnTrafficCars: a car starts in its home lane at its base speed. */
    constructor (presetLaneOffset: real, presetSpeed: real)
      ensures baseLaneOffset == presetLaneOffset && laneOffset == presetLaneOffset && targetLaneOffset == presetLaneOffset
      ensures baseSpeed == presetSpeed && speed == presetSpeed
    {
      baseLaneOffset, laneOffset, targetLaneOffset := presetLaneOffset, presetLaneOffset, presetLaneOffset;
      baseSpeed, speed := presetSpeed, presetSpeed;
    }

    /**
      One frame of the controller: pick the targets, clamp the lane target
      to the lane limit, and relax speed and lane offset toward the targets
      (`speedFactor` for rate 2.4, `laneFactor` for rate 6). A car in the
      lane limits stays there, and one at or below its base speed stays so.
     */
    method Steer(player: Projection, others: seq<Projection>, self: int, speedFactor: real, laneFactor: real)
      requires 0.0 <= speedFactor < 1.0 && 0.0 <= laneFactor < 1.0
      modifies this
      ensures targetLaneOffset == Clamp(LaneTarget(baseLaneOffset, player, others, self), -LANE_LIMIT, LANE_LIMIT)
      ensures -LANE_LIMIT <= targetLaneOffset <= LANE_LIMIT
      ensures speed == SmoothApproach(old(speed),
                         SpeedTarget(baseSpeed, PlayerInWindow(player), AnyBlocking(others, self)), speedFactor)
      ensures laneOffset == SmoothApproach(old(laneOffset), targetLaneOffset, laneFactor)
      ensures -LANE_LIMIT <= old(laneOffset) <= LANE_LIMIT ==> -LANE_LIMIT <= laneOffset <= LANE_LIMIT
      ensures old(speed) <= baseSpeed ==> speed <= baseSpeed
    {
      var targetLane, targetSpeed := SelectTargets(baseLaneOffset, baseSpeed, player, others, self);
      SpeedTargetChoices(baseSpeed, PlayerInWindow(player), AnyBlocking(others, self));
      targetLaneOffset := Clamp(targetLane, -LANE_LIMIT, LANE_LIMIT);
      speed := SmoothApproach(speed, targetSpeed, speedFactor);
      laneOffset := SmoothApproach(laneOffset, targetLaneOffset, laneFactor);
    }
  }

  /**
    The second pass of updateTraffic over all traffic cars: car `i` sees the
    player at `players[i]` and car `j` at `gaps[i][j]`. The projections are
    fixed before the pass, as the source reads only positions it does not
    change in it.
   */
  method UpdateTrafficTargets(cars: seq<TrafficCar>, players: seq<Projection>, gaps: seq<seq<Projection>>,
                              speedFactor: real, laneFactor: real)
    requires |players| == |cars| && |gaps| == |cars|
    requires forall i :: 0 <= i < |gaps| ==> |gaps[i]| == |cars|
    requires forall i, j :: 0 <= i < j < |cars| ==> cars[i] != cars[j]
    requires 0.0 <= speedFactor < 1.0 && 0.0 <= laneFactor < 1.0
    modifies set i | 0 <= i < |cars| :: cars[i]
    ensures forall i :: 0 <= i < |cars| ==>
      && cars[i].targetLaneOffset
           == Clamp(LaneTarget(cars[i].baseLaneOffset, players[i], gaps[i], i), -LANE_LIMIT, LANE_LIMIT)
      && cars[i].speed == SmoothApproach(old(cars[i].speed),
           SpeedTarget(cars[i].baseSpeed, PlayerInWindow(players[i]), AnyBlocking(gaps[i], i)), speedFactor)
      && cars[i].laneOffset == SmoothApproach(old(cars[i].laneOffset), cars[i].targetLaneOffset, laneFactor)
  {
    var i := 0;
    while i < |cars|
      invariant 0 <= i <= |cars|
      invariant forall k :: i <= k < |cars| ==>
        cars[k].speed == old(cars[k].speed) && cars[k].laneOffset == old(cars[k].laneOffset)
      invariant forall k :: 0 <= k < i ==>
        && cars[k].targetLaneOffset
             == Clamp(LaneTarget(cars[k].baseLaneOffset, players[k], gaps[k], k), -LANE_LIMIT, LANE_LIMIT)
        && cars[k].speed == SmoothApproach(old(cars[k].speed),
             SpeedTarget(cars[k].baseSpeed, PlayerInWindow(players[k]), AnyBlocking(gaps[k], k)), speedFactor)
        && cars[k].laneOffset == SmoothApproach(old(cars[k].laneOffset), cars[k].targetLaneOffset, laneFactor)
    {
      cars[i].Steer(players[i], gaps[i], i, speedFactor, laneFactor);
      i := i + 1;
    }
  }
}

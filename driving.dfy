/**
  The player car's speed and heading under input (the racing branch of
  updateCar in src/main.js) and the off-track speed penalty applied after
  the car has moved. Each `1 - exp(-rate * delta)` of the source is a
  given factor in [0, 1): `relax` for rate 12, `hard` for rate 9 and
  `soft` for rate 4.
 */
module Driving {
  import opened Helpers

  const MAX_SPEED: real := 120.0
  const MAX_REVERSE_SPEED: real := -30.0
  const TRACK_HALF_WIDTH: real := 8.2

  /** The keys held this frame. */
  datatype InputState = InputState(forward: bool, backward: bool, left: bool, right: bool)

  /**
    Forward adds 55 per second, backward (when forward is not held)
    subtracts 65 per second, no throttle relaxes the speed toward 0; the
    result is clamped to [maxReverseSpeed, maxSpeed].
   */
  function SpeedAfterInput(speed: real, input: InputState, delta: real, relax: real): (r: real)
    requires 0.0 <= relax < 1.0
    ensures MAX_REVERSE_SPEED <= r <= MAX_SPEED
  {
    var raw :=
      if input.forward then speed + 55.0 * delta
      else if input.backward then speed - 65.0 * delta
      else SmoothApproach(speed, 0.0, relax);
    Clamp(raw, MAX_REVERSE_SPEED, MAX_SPEED)
  }

  /**
    For a speed already in range and a non-negative frame time: throttle
    never slows the car and stops at maxSpeed, braking never speeds it up
    and stops at maxReverseSpeed, and coasting moves the speed toward 0
    without changing its sign.
   */
  lemma ThrottleEffects(speed: real, input: InputState, delta: real, relax: real)
    requires 0.0 <= relax < 1.0 && delta >= 0.0
    requires MAX_REVERSE_SPEED <= speed <= MAX_SPEED
    ensures var r := SpeedAfterInput(speed, input, delta, relax);
      && (input.forward ==> r == Min(speed + 55.0 * delta, MAX_SPEED) && r >= speed)
      && (!input.forward && input.backward ==> r == Max(speed - 65.0 * delta, MAX_REVERSE_SPEED) && r <= speed)
      && (!input.forward && !input.backward ==> Abs(r) <= Abs(speed) && (speed >= 0.0 ==> r >= 0.0) && (speed <= 0.0 ==> r <= 0.0))
  {
  }

  /**
    The turn rate in rad/s: base rate 2.8 scaled by `0.35 + 0.65 * speedFactor`,
    where the speed factor is |speed| / maxSpeed clamped to [0, 1].
   */
  function TurnRate(speed: real): (rate: real)
    ensures 0.98 <= rate <= 2.8
  {
    var speedFactor := Clamp(Abs(speed) / MAX_SPEED, 0.0, 1.0);
    2.8 * (0.35 + 0.65 * speedFactor)
  }

  /** The turn applied this frame: between 0.98 and 2.8 rad/s for the frame time. */
  function SteeringDelta(speed: real, delta: real): (r: real)
    ensures delta >= 0.0 ==> 0.98 * delta <= r <= 2.8 * delta
  {
    TurnOver(TurnRate(speed), delta)
  }

  /** A turn rate in [0.98, 2.8] applied for `delta` seconds. */
  function TurnOver(rate: real, delta: real): (r: real)
    requires 0.98 <= rate <= 2.8
    ensures delta >= 0.0 ==> 0.98 * delta <= r <= 2.8 * delta
  {
    if delta >= 0.0 then
      ProductNonNegative(rate - 0.98, delta);
      ProductNonNegative(2.8 - rate, delta);
      rate * delta
    else
      rate * delta
  }

  /** Reversing does not invert the steering: the turn depends on |speed| only. */
  lemma SteeringIgnoresDirection(speed: real, delta: real)
    ensures SteeringDelta(-speed, delta) == SteeringDelta(speed, delta)
  {
    assert Abs(-speed) == Abs(speed);
    assert TurnRate(-speed) == TurnRate(speed);
  }

  /** Left turns the heading up by the steering delta, right turns it down; both cancel. */
  function HeadingAfterInput(heading: real, input: InputState, steeringDelta: real): (h: real)
    ensures input.left == input.right ==> h == heading
    ensures input.left && !input.right ==> h == heading + steeringDelta
    ensures input.right && !input.left ==> h == heading - steeringDelta
  {
    var turnedLeft := if input.left then heading + steeringDelta else heading;
    if input.right then turnedLeft - steeringDelta else turnedLeft
  }

  /**
    The off-track penalty: beyond 1.35 half-widths from the track the speed
    is damped toward 0 (`hard`), beyond one half-width toward half its value
    (`soft`), on the track it is kept. A penalty never raises the magnitude
    of the speed and never reverses it.
   */
  function OffTrackSpeed(speed: real, minDistance: real, hard: real, soft: real): (r: real)
    requires 0.0 <= hard < 1.0 && 0.0 <= soft < 1.0
    ensures minDistance <= TRACK_HALF_WIDTH ==> r == speed
    ensures speed >= 0.0 ==> 0.0 <= r <= speed
    ensures speed <= 0.0 ==> speed <= r <= 0.0
    ensures TRACK_HALF_WIDTH < minDistance <= TRACK_HALF_WIDTH * 1.35 ==>
      (speed >= 0.0 ==> speed * 0.5 <= r <= speed) && (speed <= 0.0 ==> speed <= r <= speed * 0.5)
  {
    if minDistance > TRACK_HALF_WIDTH * 1.35 then SmoothApproach(speed, 0.0, hard)
    else if minDistance > TRACK_HALF_WIDTH then SmoothApproach(speed, speed * 0.5, soft)
    else speed
  }

  /** The player car's `carState` record. */
  class CarState {
    var speed: real
    var heading: real
    var progress: real
    const maxSpeed: real := MAX_SPEED
    const maxReverseSpeed: real := MAX_REVERSE_SPEED

    constructor ()
      ensures speed == 0.0 && heading == 0.0 && progress == 0.0
    {
      speed, heading, progress := 0.0, 0.0, 0.0;
    }

    /** The input block of updateCar while the race is running. */
    method ApplyInput(input: InputState, delta: real, relax: real)
      requires 0.0 <= relax < 1.0
      modifies this
      ensures speed == SpeedAfterInput(old(speed), input, delta, relax)
      ensures heading == HeadingAfterInput(old(heading), input, SteeringDelta(speed, delta))
      ensures progress == old(progress)
    {
      if input.forward {
        speed := speed + 55.0 * delta;
      } else if input.backward {
        speed := speed - 65.0 * delta;
      } else {
        speed := SmoothApproach(speed, 0.0, relax);
      }
      speed := Clamp(speed, maxReverseSpeed, maxSpeed);

      var speedFactor := Clamp(Abs(speed) / maxSpeed, 0.0, 1.0);
      var steeringDelta := 2.8 * (0.35 + 0.65 * speedFactor) * delta;
      if input.left { heading := heading + steeringDelta; }
      if input.right { heading := heading - steeringDelta; }
    }

    /** The off-track damping of updateCar, given the distance recalculateCarProgress found. */
    method ApplyOffTrackPenalty(minDistance: real, hard: real, soft: real)
      requires 0.0 <= hard < 1.0 && 0.0 <= soft < 1.0
      modifies this
      ensures speed == OffTrackSpeed(old(speed), minDistance, hard, soft)
      ensures heading == old(heading) && progress == old(progress)
    {
      if minDistance > TRACK_HALF_WIDTH * 1.35 {
        speed := SmoothApproach(speed, 0.0, hard);
      } else if minDistance > TRACK_HALF_WIDTH {
        speed := SmoothApproach(speed, speed * 0.5, soft);
      }
    }
  }
}

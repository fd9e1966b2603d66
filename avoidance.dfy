/** The reactive obstacle-avoidance law shared by the mobile fish: average the three left
    and the three right ray readings, react only when an upper-front or side ray hit, and
    then spin away from the nearer side (a tie spins left). */
module Avoidance {
  import opened Common

  /** Mean of the three left-side readings (the lower ray counts here). */
  function LeftProximity(r: Rays): real
  {
    (r.frontLU.value + r.frontLD.value + r.sideLeft.value) / 3.0
  }

  /** Mean of the three right-side readings (the lower ray counts here). */
  function RightProximity(r: Rays): real
  {
    (r.frontRU.value + r.frontRD.value + r.sideRight.value) / 3.0
  }

  /** An obstacle is perceived only through the upper-front and side rays: the two
      downward rays may be seeing the ground. */
  predicate Perceived(r: Rays)
  {
    r.frontLU.hit || r.frontRU.hit || r.sideLeft.hit || r.sideRight.hit
  }

  /** The override command (left, right), or None when nothing is perceived. `bias` is the
      small additive term some variants add to both propellers. */
  function AvoidanceCommand(r: Rays, speed: real, bias: real): (c: Option<(real, real)>)
    ensures c.Some? <==> Perceived(r)
    ensures c.Some? ==> c.value.0 + c.value.1 == 2.0 * bias
    ensures c.Some? ==> Abs(c.value.1 - c.value.0) == 2.0 * Abs(speed)
    ensures c.Some? && speed > 0.0 ==> (c.value.0 < c.value.1 <==> RightProximity(r) >= LeftProximity(r))
  {
    if !Perceived(r) then None
    else if RightProximity(r) >= LeftProximity(r) then Some((-speed + bias, speed + bias))
    else Some((speed + bias, -speed + bias))
  }

  /** The controllers' obstacle-avoidance computation, step by step as the source does it:
      the proportional brake is computed first and then always overwritten by the turn. */
  method ComputeAvoidance(r: Rays, threshold: real, avoidSpeed: real, brakeSpeed: real, bias: real)
    returns (active: bool, leftSpeed: real, rightSpeed: real)
    requires threshold >= 0.0
    ensures active == Perceived(r)
    ensures AvoidanceCommand(r, avoidSpeed, bias) == if active then Some((leftSpeed, rightSpeed)) else None
  {
    var pl := r.frontLU.value + r.frontLD.value + r.sideLeft.value;
    var pr := r.frontRU.value + r.frontRD.value + r.sideRight.value;
    pl := pl / 3.0;
    pr := pr / 3.0;

    var obstaclePerceived := r.frontLU.hit || r.frontRU.hit || r.sideLeft.hit || r.sideRight.hit;
    if !obstaclePerceived {
      return false, 0.0, 0.0;
    }

    leftSpeed, rightSpeed := 0.0, 0.0;
    // proportional brake: each side brakes by the opposite side's share
    if pr > threshold && pl > threshold {
      leftSpeed := -brakeSpeed * pr / (pr + pl);
      rightSpeed := -brakeSpeed * pl / (pr + pl);
    }
    if pr >= pl {
      leftSpeed := -avoidSpeed + bias;
      rightSpeed := avoidSpeed + bias;
    } else {
      leftSpeed := avoidSpeed + bias;
      rightSpeed := -avoidSpeed + bias;
    }
    active := true;
  }

  /** Equal proximities on both sides always resolve to a left spin, never to a brake. */
  lemma TieTurnsLeft(r: Rays, speed: real, bias: real)
    requires Perceived(r) && LeftProximity(r) == RightProximity(r)
    ensures AvoidanceCommand(r, speed, bias) == Some((-speed + bias, speed + bias))
  {
  }

  /** The hit flags of the two downward rays never decide whether avoidance happens. */
  lemma DownRaysNeverTrigger(r: Rays, ld: bool, rd: bool)
    ensures Perceived(r) == Perceived(r.(frontLD := r.frontLD.(hit := ld), frontRD := r.frontRD.(hit := rd)))
  {
  }

  /** Mirroring the rays left-to-right mirrors the command, except on a tie. */
  lemma AvoidanceMirror(r: Rays, speed: real, bias: real)
    requires LeftProximity(r) != RightProximity(r)
    ensures var m := Rays(r.frontRU, r.frontRD, r.sideRight, r.frontLU, r.frontLD, r.sideLeft);
            match AvoidanceCommand(r, speed, bias)
            case None => AvoidanceCommand(m, speed, bias) == None
            case Some(c) => AvoidanceCommand(m, speed, bias) == Some((c.1, c.0))
  {
  }
}

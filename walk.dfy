/** The explore/turn automaton shared by the random-walking controllers: EXPLORE for an
    exponentially distributed dwell, then TURN on the spot for a dwell proportional to the
    drawn angle, then back to EXPLORE. Explore and turn keep separate timer pairs.
    The functions here are the specification the controller classes are proved against. */
module Walk {
  import opened Common
  import Avoidance

  datatype Mode = Explore | Turn

  /** Controller parameters of the walking fish. */
  datatype WalkParams = WalkParams(
    obstacleAvoidanceThreshold: real,
    obstacleAvoidanceSpeed: real,
    breakSpeed: real,
    exploreMeanDuration: real,
    exploreSpeed: real,
    turnSpeed: real)

  /** What the controllers need of their parameters: a positive turn speed (it divides the
      turn dwell), a non-negative explore mean and a non-negative avoidance threshold. */
  predicate ValidParams(p: WalkParams)
  {
    p.obstacleAvoidanceThreshold >= 0.0 && p.exploreMeanDuration >= 0.0 && p.turnSpeed > 0.0
  }

  /** The working variables of a walking controller and the last propeller commands. */
  datatype Walker = Walker(
    state: Mode,
    time: real,
    exploreDuration: real,
    exploreStartTime: real,
    turnPreviousState: Mode,
    turnDuration: real,
    turnStartTime: real,
    turnSign: real,
    propellerLeft: real,
    propellerRight: real,
    colour: Colour)

  /** The state a controller object holds before its first reset. */
  const Initial: Walker := Walker(Explore, 0.0, 0.0, 0.0, Explore, 0.0, 0.0, 1.0, 0.0, 0.0, Yellow)

  /** Invariant of every reachable walker: dwell times are never negative, the turn sign
      is a unit and a turn always returns to EXPLORE. */
  predicate Inv(w: Walker)
  {
    w.exploreDuration >= 0.0 && w.turnDuration >= 0.0 &&
    (w.turnSign == 1.0 || w.turnSign == -1.0) &&
    w.turnPreviousState == Explore
  }

  function Drive(w: Walker, left: real, right: real): Walker
  {
    w.(propellerLeft := left, propellerRight := right)
  }

  /** Entering EXPLORE: a dwell of `sample` times the mean (`sample` is the standard
      exponential draw -log(1 - U)), starting now. */
  function ExploreInit(w: Walker, mean: real, sample: real): Walker
  {
    w.(exploreDuration := sample * mean, exploreStartTime := w.time, state := Explore, colour := Yellow)
  }

  /** Entering TURN for a fish: sign and dwell from the drawn angle; no propeller command. */
  function FishTurnInit(w: Walker, previous: Mode, angle: real, turnSpeed: real): Walker
    requires turnSpeed > 0.0
  {
    w.(turnPreviousState := previous, turnSign := TurnSign(angle),
       turnDuration := FishTurnDuration(angle, turnSpeed), turnStartTime := w.time, state := Turn)
  }

  /** One TURN step: on strict expiry go back to the previous state (EXPLORE), issuing no
      command; otherwise spin with (spin * sign, -spin * sign). */
  function TurnTick(w: Walker, mean: real, sample: real, spin: real): Walker
  {
    if Expired(w.time, w.turnStartTime, w.turnDuration) && w.turnPreviousState == Explore
    then ExploreInit(w, mean, sample)
    else Drive(w, spin * w.turnSign, -spin * w.turnSign)
  }

  /** The propellers after an avoidance attempt that did or did not override. */
  function Avoid(w: Walker, c: Option<(real, real)>): Walker
  {
    match c
    case None => w
    case Some(lr) => Drive(w, lr.0, lr.1)
  }

  /** One EXPLORE step of a fish: turn on strict expiry, otherwise avoid obstacles, otherwise
      cruise with (cruise, cruise). */
  function FishExploreTick(w: Walker, p: WalkParams, rays: Rays, angle: real, cruise: real): Walker
    requires ValidParams(p)
  {
    if Expired(w.time, w.exploreStartTime, w.exploreDuration) then FishTurnInit(w, Explore, angle, p.turnSpeed)
    else
      var c := Avoidance.AvoidanceCommand(rays, p.obstacleAvoidanceSpeed, 0.0);
      if c.Some? then Avoid(w, c) else Drive(w, cruise, cruise)
  }

  /** One controller step of a walking fish at clock `now`. `cruise` is the explore command
      and `spin` the turn command magnitude of the variant. */
  function FishStep(w: Walker, p: WalkParams, now: real, rays: Rays, sample: real, angle: real,
                    cruise: real, spin: real): Walker
    requires ValidParams(p)
  {
    var v := w.(time := now);
    match v.state
    case Explore => FishExploreTick(v, p, rays, angle, cruise)
    case Turn => TurnTick(v, p.exploreMeanDuration, sample, spin)
  }

  /** Reset of a walking fish: clock and timers zeroed, sign +1, then EXPLORE is entered. */
  function FishReset(w: Walker, p: WalkParams, sample: real): Walker
  {
    ExploreInit(w.(time := 0.0, exploreDuration := 0.0, exploreStartTime := 0.0,
                   turnPreviousState := Explore, turnDuration := 0.0, turnStartTime := 0.0,
                   turnSign := 1.0, state := Explore),
                p.exploreMeanDuration, sample)
  }

  lemma ResetState(w: Walker, p: WalkParams, sample: real)
    requires ValidParams(p) && sample >= 0.0
    ensures var v := FishReset(w, p, sample);
            && Inv(v) && v.state == Explore && v.time == 0.0 && v.exploreStartTime == 0.0
            && v.exploreDuration == sample * p.exploreMeanDuration
            && v.turnDuration == 0.0 && v.turnStartTime == 0.0 && v.turnSign == 1.0
            && v.propellerLeft == w.propellerLeft && v.propellerRight == w.propellerRight
  {
  }

  /** The walk invariant is kept by every step. */
  lemma FishStepKeepsInv(w: Walker, p: WalkParams, now: real, rays: Rays, sample: real, angle: real,
                         cruise: real, spin: real)
    requires ValidParams(p) && Inv(w) && sample >= 0.0
    ensures Inv(FishStep(w, p, now, rays, sample, angle, cruise, spin))
  {
  }

  /** EXPLORE moves to TURN exactly on strict expiry of the explore timer. The entry sets
      sign and dwell from the angle and stamps the turn start, but issues no propeller
      command and leaves the explore timer alone. */
  lemma FishExploreTransition(w: Walker, p: WalkParams, now: real, rays: Rays, sample: real, angle: real,
                              cruise: real, spin: real)
    requires ValidParams(p) && w.state == Explore
    ensures var v := FishStep(w, p, now, rays, sample, angle, cruise, spin);
            && (v.state == Turn <==> now - w.exploreStartTime > w.exploreDuration)
            && (v.state == Turn ==>
                  && v.turnSign == TurnSign(angle)
                  && v.turnDuration == FishTurnDuration(angle, p.turnSpeed)
                  && v.turnStartTime == now && v.turnPreviousState == Explore
                  && v.exploreDuration == w.exploreDuration && v.exploreStartTime == w.exploreStartTime
                  && v.propellerLeft == w.propellerLeft && v.propellerRight == w.propellerRight)
  {
  }

  /** A non-expired EXPLORE step commands (cruise, cruise) exactly when no obstacle is
      perceived; otherwise the avoidance command replaces it. */
  lemma FishExploreDrive(w: Walker, p: WalkParams, now: real, rays: Rays, sample: real, angle: real,
                         cruise: real, spin: real)
    requires ValidParams(p) && w.state == Explore && now - w.exploreStartTime <= w.exploreDuration
    ensures var v := FishStep(w, p, now, rays, sample, angle, cruise, spin);
            && v.state == Explore
            && v == w.(time := now, propellerLeft := v.propellerLeft, propellerRight := v.propellerRight)
            && (!Avoidance.Perceived(rays) ==> v.propellerLeft == cruise && v.propellerRight == cruise)
            && (Avoidance.Perceived(rays) ==>
                  Avoidance.AvoidanceCommand(rays, p.obstacleAvoidanceSpeed, 0.0) == Some((v.propellerLeft, v.propellerRight)))
  {
  }

  /** TURN returns to EXPLORE exactly on strict expiry, with a fresh explore dwell and no
      propeller command that step; before expiry it re-issues the spin command. */
  lemma FishTurnStep(w: Walker, p: WalkParams, now: real, rays: Rays, sample: real, angle: real,
                     cruise: real, spin: real)
    requires ValidParams(p) && Inv(w) && w.state == Turn
    ensures var v := FishStep(w, p, now, rays, sample, angle, cruise, spin);
            && (v.state == Explore <==> now - w.turnStartTime > w.turnDuration)
            && (v.state == Explore ==>
                  && v.exploreStartTime == now && v.exploreDuration == sample * p.exploreMeanDuration
                  && v.propellerLeft == w.propellerLeft && v.propellerRight == w.propellerRight)
            && (v.state == Turn ==>
                  && v.propellerLeft == spin * w.turnSign && v.propellerRight == -spin * w.turnSign
                  && v.turnStartTime == w.turnStartTime && v.turnDuration == w.turnDuration)
  {
  }
}

/** The random-walk fish: EXPLORE/TURN only, with reactive obstacle avoidance while
    exploring and no communication. */
module RandomWalk {
  import opened Common
  import opened Walk
  import Avoidance

  class ControllerAFish {
    const params: WalkParams

    var state: Mode
    var time: real
    var exploreDuration: real
    var exploreStartTime: real
    var turnPreviousState: Mode
    var turnDuration: real
    var turnStartTime: real
    var turnSign: real

    // last commands issued to the devices
    var propellerLeft: real
    var propellerRight: real
    var colour: Colour

    function View(): Walker
      reads this
    {
      Walker(state, time, exploreDuration, exploreStartTime, turnPreviousState,
             turnDuration, turnStartTime, turnSign, propellerLeft, propellerRight, colour)
    }

    ghost predicate Valid()
      reads this
    {
      ValidParams(params) && Inv(View())
    }

    constructor (p: WalkParams, sample: real)
      requires ValidParams(p) && sample >= 0.0
      ensures params == p && Valid()
      ensures View() == FishReset(Initial, p, sample)
    {
      params := p;
      state, time := Explore, 0.0;
      exploreDuration, exploreStartTime := 0.0, 0.0;
      turnPreviousState, turnDuration, turnStartTime, turnSign := Explore, 0.0, 0.0, 1.0;
      propellerLeft, propellerRight, colour := 0.0, 0.0, Yellow;
      new;
      Reset(sample);
    }

    method Step(now: real, rays: Rays, sample: real, angle: real)
      requires Valid() && sample >= 0.0
      modifies this
      ensures Valid()
      ensures View() == FishStep(old(View()), params, now, rays, sample, angle, params.exploreSpeed, params.turnSpeed)
    {
      time := now;
      match state {
        case Explore => StateExplore(rays, angle);
        case Turn => StateTurn(sample);
      }
      FishStepKeepsInv(old(View()), params, now, rays, sample, angle, params.exploreSpeed, params.turnSpeed);
    }

    method StateExploreInit(sample: real)
      modifies this
      ensures View() == ExploreInit(old(View()), params.exploreMeanDuration, sample)
    {
      exploreDuration := sample * params.exploreMeanDuration;
      exploreStartTime := time;
      state := Explore;
      colour := Yellow;
    }

    method StateExplore(rays: Rays, angle: real)
      requires ValidParams(params)
      modifies this
      ensures View() == FishExploreTick(old(View()), params, rays, angle, params.exploreSpeed)
    {
      if time - exploreStartTime > exploreDuration {
        StateTurnInit(Explore, angle);
        return;
      }
      var avoiding := ObstacleAvoidance(rays);
      if avoiding {
        return;
      }
      propellerLeft := params.exploreSpeed;
      propellerRight := params.exploreSpeed;
    }

    method StateTurnInit(previousState: Mode, angle: real)
      requires params.turnSpeed > 0.0
      modifies this
      ensures View() == FishTurnInit(old(View()), previousState, angle, params.turnSpeed)
    {
      var duration := Abs(angle) / Pi / 3.0 / params.turnSpeed;
      assert duration == FishTurnDuration(angle, params.turnSpeed);
      turnPreviousState := previousState;
      if angle < 0.0 {
        turnSign := 1.0;
      } else {
        turnSign := -1.0;
      }
      turnDuration := duration;
      turnStartTime := time;
      state := Turn;
    }

    method StateTurn(sample: real)
      modifies this
      ensures View() == TurnTick(old(View()), params.exploreMeanDuration, sample, params.turnSpeed)
    {
      if time - turnStartTime > turnDuration {
        match turnPreviousState {
          case Explore => StateExploreInit(sample); return;
          case Turn =>
        }
      }
      propellerLeft := params.turnSpeed * turnSign;
      propellerRight := -params.turnSpeed * turnSign;
    }

    method ObstacleAvoidance(rays: Rays) returns (avoiding: bool)
      requires params.obstacleAvoidanceThreshold >= 0.0
      modifies this
      ensures avoiding == Avoidance.Perceived(rays)
      ensures View() == Avoid(old(View()), Avoidance.AvoidanceCommand(rays, params.obstacleAvoidanceSpeed, 0.0))
    {
      var leftSpeed, rightSpeed;
      avoiding, leftSpeed, rightSpeed := Avoidance.ComputeAvoidance(rays, params.obstacleAvoidanceThreshold,
                                                                    params.obstacleAvoidanceSpeed, params.breakSpeed, 0.0);
      if avoiding {
        propellerLeft := leftSpeed;
        propellerRight := rightSpeed;
      }
    }

    method Reset(sample: real)
      modifies this
      ensures View() == FishReset(old(View()), params, sample)
    {
      time := 0.0;
      exploreDuration := 0.0;
      exploreStartTime := 0.0;
      turnPreviousState := Explore;
      turnDuration := 0.0;
      turnStartTime := 0.0;
      turnSign := 1.0;
      state := Explore;
      assert View() == old(View()).(time := 0.0, exploreDuration := 0.0, exploreStartTime := 0.0,
                                    turnPreviousState := Explore, turnDuration := 0.0, turnStartTime := 0.0,
                                    turnSign := 1.0, state := Explore);
      StateExploreInit(sample);
    }
  }
}

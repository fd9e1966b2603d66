/** The random-walk pad: EXPLORE/TURN without obstacle avoidance, a turn dwell of
    |angle| / pi * 7.3 / turnSpeed, and a reset that leaves the pad turning half a circle. */
module PadRandomWalk {
  import opened Common
  import opened Walk

  // parameter defaults of the pad controller
  const ExploreMeanDuration: real := 5.0
  const ExploreSpeed: real := 0.5
  const TurnSpeed: real := 1.0
  /** Seconds of turning per half circle at unit turn speed. */
  const TurnFactor: real := 7.3

  /** Pad turn dwell: never negative and at most 7.3 / turnSpeed for an angle in [-pi, pi];
      a half-circle (|angle| = pi) takes exactly 7.3 / turnSpeed. */
  function PadTurnDuration(angle: real, turnSpeed: real): (d: real)
    requires turnSpeed > 0.0
    ensures d >= 0.0
    ensures -Pi <= angle <= Pi ==> d <= TurnFactor / turnSpeed
    ensures Abs(angle) == Pi ==> d == TurnFactor / turnSpeed
  {
    var q := Abs(angle) / Pi;
    assert -Pi <= angle <= Pi ==> q <= 1.0;
    var d := q * TurnFactor / turnSpeed;
    assert d == q * (TurnFactor / turnSpeed);
    d
  }

  /** Entering TURN for the pad: sign and dwell from the angle, explore timer untouched. */
  function PadTurnInit(w: Walker, previous: Mode, angle: real): Walker
  {
    w.(turnPreviousState := previous, turnSign := TurnSign(angle),
       turnDuration := PadTurnDuration(angle, TurnSpeed), turnStartTime := w.time, state := Turn)
  }

  /** One EXPLORE step of the pad: turn on strict expiry, otherwise cruise. */
  function PadExploreTick(w: Walker, angle: real): Walker
  {
    if Expired(w.time, w.exploreStartTime, w.exploreDuration) then PadTurnInit(w, Explore, angle)
    else Drive(w, ExploreSpeed, ExploreSpeed)
  }

  function PadStep(w: Walker, now: real, sample: real, angle: real): Walker
  {
    var v := w.(time := now);
    match v.state
    case Explore => PadExploreTick(v, angle)
    case Turn => TurnTick(v, ExploreMeanDuration, sample, TurnSpeed)
  }

  /** Reset: zero the clock and timers, enter EXPLORE (one draw), then overwrite the state
      by entering TURN with the angle pi. */
  function PadReset(w: Walker, sample: real): Walker
  {
    var v := ExploreInit(w.(time := 0.0, exploreDuration := 0.0, exploreStartTime := 0.0,
                            turnPreviousState := Explore, turnDuration := 0.0, turnStartTime := 0.0,
                            turnSign := 1.0, state := Explore),
                         ExploreMeanDuration, sample);
    PadTurnInit(v.(state := Turn), Explore, Pi)
  }

  lemma PadResetState(w: Walker, sample: real)
    requires sample >= 0.0
    ensures var v := PadReset(w, sample);
            && Inv(v) && v.state == Turn && v.time == 0.0
            && v.turnSign == -1.0 && v.turnDuration == TurnFactor && v.turnStartTime == 0.0
            && v.turnPreviousState == Explore
            && v.exploreDuration == sample * ExploreMeanDuration && v.exploreStartTime == 0.0
            && v.propellerLeft == w.propellerLeft && v.propellerRight == w.propellerRight
  {
  }

  lemma PadStepKeepsInv(w: Walker, now: real, sample: real, angle: real)
    requires Inv(w) && sample >= 0.0
    ensures Inv(PadStep(w, now, sample, angle))
  {
  }

  /** EXPLORE moves to TURN exactly on strict expiry, leaving the explore timer and the
      propellers as they were; otherwise it commands (exploreSpeed, exploreSpeed) whatever
      surrounds the pad. */
  lemma PadExploreStep(w: Walker, now: real, sample: real, angle: real)
    requires w.state == Explore
    ensures var v := PadStep(w, now, sample, angle);
            && (v.state == Turn <==> now - w.exploreStartTime > w.exploreDuration)
            && (v.state == Turn ==>
                  && v.turnSign == TurnSign(angle) && v.turnDuration == PadTurnDuration(angle, TurnSpeed)
                  && v.turnStartTime == now
                  && v.exploreDuration == w.exploreDuration && v.exploreStartTime == w.exploreStartTime
                  && v.propellerLeft == w.propellerLeft && v.propellerRight == w.propellerRight)
            && (v.state == Explore ==>
                  v == w.(time := now, propellerLeft := ExploreSpeed, propellerRight := ExploreSpeed))
  {
  }

  /** TURN returns to EXPLORE exactly on strict expiry, issuing no command that step;
      before expiry it commands (turnSpeed * sign, -turnSpeed * sign). */
  lemma PadTurnStep(w: Walker, now: real, sample: real, angle: real)
    requires Inv(w) && w.state == Turn
    ensures var v := PadStep(w, now, sample, angle);
            && (v.state == Explore <==> now - w.turnStartTime > w.turnDuration)
            && (v.state == Explore ==>
                  && v.exploreStartTime == now && v.exploreDuration == sample * ExploreMeanDuration
                  && v.propellerLeft == w.propellerLeft && v.propellerRight == w.propellerRight)
            && (v.state == Turn ==>
                  v == w.(time := now, propellerLeft := TurnSpeed * w.turnSign,
                          propellerRight := -TurnSpeed * w.turnSign))
  {
  }

  class ControllerAPad {
    var state: Mode
    var time: real
    var exploreDuration: real
    var exploreStartTime: real
    var turnPreviousState: Mode
    var turnDuration: real
    var turnStartTime: real
    var turnSign: real
    /** Declared by the pad controller but never read or written by it. */
    var collisionsDecisionLastTime: real

    // last commands issued to the devices
    var propellerLeft: real
    var propellerRight: real
    var colour: Colour

    function View(): Walker
      reads this
    {
      Walker(state, time, exploreDuration, exploreStartTime, turnPreviousState,
             turnDuration, turnStartTime, turnSign, propellerLeft, propellerRight, colour)
    }

    ghost predicate Valid()
      reads this
    {
      Inv(View())
    }

    constructor (sample: real)
      requires sample >= 0.0
      ensures Valid()
      ensures View() == PadReset(Initial, sample)
    {
      state, time := Explore, 0.0;
      exploreDuration, exploreStartTime := 0.0, 0.0;
      turnPreviousState, turnDuration, turnStartTime, turnSign := Explore, 0.0, 0.0, 1.0;
      propellerLeft, propellerRight, colour := 0.0, 0.0, Yellow;
      new;
      Reset(sample);
    }

    method Step(now: real, sample: real, angle: real)
      requires Valid() && sample >= 0.0
      modifies this
      ensures Valid()
      ensures View() == PadStep(old(View()), now, sample, angle)
      ensures collisionsDecisionLastTime == old(collisionsDecisionLastTime)
    {
      time := now;
      match state {
        case Explore => StateExplore(angle);
        case Turn => StateTurn(sample);
      }
      PadStepKeepsInv(old(View()), now, sample, angle);
    }

    method StateExploreInit(sample: real)
      modifies this
      ensures View() == ExploreInit(old(View()), ExploreMeanDuration, sample)
      ensures collisionsDecisionLastTime == old(collisionsDecisionLastTime)
    {
      exploreDuration := sample * ExploreMeanDuration;
      exploreStartTime := time;
      state := Explore;
      colour := Yellow;
    }

    method StateExplore(angle: real)
      modifies this
      ensures View() == PadExploreTick(old(View()), angle)
      ensures collisionsDecisionLastTime == old(collisionsDecisionLastTime)
    {
      if time - exploreStartTime > exploreDuration {
        StateTurnInit(Explore, angle);
        return;
      }
      propellerLeft := ExploreSpeed;
      propellerRight := ExploreSpeed;
    }

    method StateTurnInit(previousState: Mode, angle: real)
      modifies this
      ensures View() == PadTurnInit(old(View()), previousState, angle)
      ensures collisionsDecisionLastTime == old(collisionsDecisionLastTime)
    {
      var duration := (Abs(angle) / Pi) * TurnFactor / TurnSpeed;
      assert duration == PadTurnDuration(angle, TurnSpeed);
      turnPreviousState := previousState;
      if angle < 0.0 {
        turnSign := 1.0;
      } else {
        turnSign := -1.0;
      }
      turnDuration := duration;
      turnStartTime := time;
      state := Turn;
    }

    method StateTurn(sample: real)
      modifies this
      ensures View() == TurnTick(old(View()), ExploreMeanDuration, sample, TurnSpeed)
      ensures collisionsDecisionLastTime == old(collisionsDecisionLastTime)
    {
      if time - turnStartTime > turnDuration {
        match turnPreviousState {
          case Explore => StateExploreInit(sample); return;
          case Turn =>
        }
      }
      propellerLeft := TurnSpeed * turnSign;
      propellerRight := -TurnSpeed * turnSign;
    }

    method Reset(sample: real)
      modifies this
      ensures View() == PadReset(old(View()), sample)
      ensures collisionsDecisionLastTime == old(collisionsDecisionLastTime)
    {
      time := 0.0;
      exploreDuration := 0.0;
      exploreStartTime := 0.0;
      turnPreviousState := Explore;
      turnDuration := 0.0;
      turnStartTime := 0.0;
      turnSign := 1.0;

      state := Explore;
      assert View() == old(View()).(time := 0.0, exploreDuration := 0.0, exploreStartTime := 0.0,
                                    turnPreviousState := Explore, turnDuration := 0.0, turnStartTime := 0.0,
                                    turnSign := 1.0, state := Explore);
      StateExploreInit(sample);

      state := Turn;
      StateTurnInit(Explore, Pi);
    }
  }
}

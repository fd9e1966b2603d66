/** The electric-sense desynchronisation fish: a duty-cycle counter that grows by one
    timestep per step. At or below the threshold the fish is passive (zero polarisation)
    and, when it senses a current on electrode 0, holds its counter still; above the
    threshold it is active (polarisation 10 on electrode 0); at the ceiling the counter
    restarts at 0. It broadcasts once per step, drains its receive queue and runs the
    explore/turn automaton with zero cruise and spin speeds, so only obstacle avoidance
    moves it. */
module ElectricSense {
  import opened Common
  import opened Walk
  import Avoidance

  /** Polarisation vectors of the five electrodes. */
  const Passive: seq<real> := [0.0, 0.0, 0.0, 0.0, 0.0]
  const Active: seq<real> := [10.0, 0.0, 0.0, 0.0, 0.0]

  /** The controller's variables and the last commands it issued to its devices;
      `polarization` is empty until the first polarisation command. */
  datatype Sensor = Sensor(
    walk: Walker,
    counter: real,
    actifPassif: int,
    polarization: seq<real>,
    sent: nat,
    mailbox: seq<Message>)

  /** Invariant of every reachable fish. */
  predicate SensorInv(s: Sensor)
  {
    Inv(s.walk) && (s.actifPassif == 0 || s.actifPassif == 1)
  }

  function WithColour(s: Sensor, c: Colour): Sensor
  {
    s.(walk := s.walk.(colour := c))
  }

  /** The duty cycle of one step with timestep `dt`, the current `current0` read on electrode
      0, and the controller's threshold and ceiling. */
  function DutyStep(s: Sensor, dt: real, current0: real, threshold: real, ceiling: real): Sensor
  {
    var c := s.counter + dt;
    var a :=
      if c <= threshold then
        if current0 == 0.0 then WithColour(s, Yellow).(counter := c, polarization := Passive, actifPassif := 0)
        else WithColour(s, Green).(counter := c - dt, polarization := Passive, actifPassif := 1)
      else WithColour(s, Red).(counter := c, polarization := Active);
    if a.counter >= ceiling then WithColour(a, Yellow).(polarization := Passive, counter := 0.0, actifPassif := 0)
    else a
  }

  /** The walking part of a step: zero cruise and zero spin. */
  function ZeroSpeedStep(w: Walker, p: WalkParams, now: real, rays: Rays, sample: real, angle: real): Walker
    requires ValidParams(p)
  {
    FishStep(w, p, now, rays, sample, angle, p.exploreSpeed * 0.0, p.exploreSpeed * 0.0)
  }

  /** One controller step at clock `now`: the duty cycle, one broadcast, the receive queue
      drained, then the explore/turn automaton. */
  function SenseStep(s: Sensor, p: WalkParams, threshold: real, ceiling: real, now: real, dt: real,
                     current0: real, rays: Rays, sample: real, angle: real): Sensor
    requires ValidParams(p)
  {
    var d := DutyStep(s.(walk := s.walk.(time := now)), dt, current0, threshold, ceiling);
    d.(sent := d.sent + 1, mailbox := [], walk := ZeroSpeedStep(d.walk, p, now, rays, sample, angle))
  }

  /** Below the threshold a sensed current holds the counter still and marks the fish
      active-passive 1; no current marks it 0. Both are passive (zero polarisation). Unless
      the ceiling is reached, the counter otherwise grows by exactly one timestep. */
  lemma PassiveRule(s: Sensor, dt: real, current0: real, threshold: real, ceiling: real)
    requires s.counter + dt <= threshold
    ensures var v := DutyStep(s, dt, current0, threshold, ceiling);
            && v.polarization == Passive
            && (current0 != 0.0 && s.counter < ceiling ==>
                  v.counter == s.counter && v.actifPassif == 1 && v.walk.colour == Green)
            && (current0 == 0.0 && s.counter + dt < ceiling ==>
                  v.counter == s.counter + dt && v.actifPassif == 0 && v.walk.colour == Yellow)
            && (current0 == 0.0 ==> v.actifPassif == 0)
  {
  }

  /** The fish is active on this step exactly when the incremented counter is above the
      threshold and below the ceiling: the ceiling overrides the active polarisation. */
  lemma ActiveWindow(s: Sensor, dt: real, current0: real, threshold: real, ceiling: real)
    ensures var v := DutyStep(s, dt, current0, threshold, ceiling);
            && (v.polarization == Active <==> threshold < s.counter + dt < ceiling)
            && (v.polarization == Passive || v.polarization == Active)
            && (v.polarization == Active ==> v.counter == s.counter + dt && v.walk.colour == Red)
  {
  }

  /** The counter after the passive/active branch: held still when a current is sensed at or
      below the threshold, one timestep more otherwise. The ceiling restarts the counter
      exactly when this value reaches it, and then the fish ends passive with active-passive
      0 and colour yellow, overriding whatever the branch chose; below the ceiling the
      counter keeps that value. */
  lemma CeilingResets(s: Sensor, dt: real, current0: real, threshold: real, ceiling: real)
    ensures var c := if s.counter + dt <= threshold && current0 != 0.0 then s.counter else s.counter + dt;
            var v := DutyStep(s, dt, current0, threshold, ceiling);
            && (c >= ceiling ==>
                  v.counter == 0.0 && v.actifPassif == 0 && v.polarization == Passive && v.walk.colour == Yellow)
            && (c < ceiling ==> v.counter == c)
  {
  }

  /** From a counter below the ceiling, a step that carries it to the ceiling without a held
      current restarts it at 0. */
  lemma CeilingReachedResets(s: Sensor, dt: real, current0: real, threshold: real, ceiling: real)
    requires 0.0 <= s.counter < ceiling <= s.counter + dt
    requires threshold < s.counter + dt || current0 == 0.0
    ensures var v := DutyStep(s, dt, current0, threshold, ceiling);
            v.counter == 0.0 && v.actifPassif == 0 && v.polarization == Passive && v.walk.colour == Yellow
  {
    CeilingResets(s, dt, current0, threshold, ceiling);
  }

  /** With a non-negative timestep the counter stays in [0, ceiling). */
  lemma CounterBounded(s: Sensor, dt: real, current0: real, threshold: real, ceiling: real)
    requires 0.0 <= s.counter < ceiling && dt >= 0.0
    ensures var v := DutyStep(s, dt, current0, threshold, ceiling);
            0.0 <= v.counter < ceiling
  {
  }

  /** A step keeps the invariant, broadcasts once and drains the queue. */
  lemma StepKeepsInv(s: Sensor, p: WalkParams, threshold: real, ceiling: real, now: real, dt: real,
                     current0: real, rays: Rays, sample: real, angle: real)
    requires ValidParams(p) && SensorInv(s) && sample >= 0.0
    ensures var v := SenseStep(s, p, threshold, ceiling, now, dt, current0, rays, sample, angle);
            SensorInv(v) && v.sent == s.sent + 1 && v.mailbox == []
  {
    var d := DutyStep(s.(walk := s.walk.(time := now)), dt, current0, threshold, ceiling);
    assert Inv(d.walk) && (d.actifPassif == 0 || d.actifPassif == 1);
    FishStepKeepsInv(d.walk, p, now, rays, sample, angle, p.exploreSpeed * 0.0, p.exploreSpeed * 0.0);
  }

  /** SenseStep as the composition of its parts, in the order the controller runs them. */
  lemma SenseStepParts(s: Sensor, p: WalkParams, threshold: real, ceiling: real, now: real, dt: real,
                       current0: real, rays: Rays, sample: real, angle: real,
                       clocked: Sensor, duty: Sensor, drained: Sensor)
    requires ValidParams(p)
    requires clocked == s.(walk := s.walk.(time := now))
    requires duty == DutyStep(clocked, dt, current0, threshold, ceiling)
    requires drained == duty.(sent := duty.sent + 1, mailbox := [])
    ensures SenseStep(s, p, threshold, ceiling, now, dt, current0, rays, sample, angle)
            == drained.(walk := ZeroSpeedStep(drained.walk, p, drained.walk.time, rays, sample, angle))
  {
  }

  /** The fish only moves to avoid obstacles: after any step the propellers hold either the
      previous command, zero, or an avoidance command issued while an obstacle is
      perceived. */
  lemma OnlyAvoidanceMoves(s: Sensor, p: WalkParams, threshold: real, ceiling: real, now: real, dt: real,
                           current0: real, rays: Rays, sample: real, angle: real)
    requires ValidParams(p)
    ensures var v := SenseStep(s, p, threshold, ceiling, now, dt, current0, rays, sample, angle);
            var c := (v.walk.propellerLeft, v.walk.propellerRight);
            || c == (s.walk.propellerLeft, s.walk.propellerRight)
            || c == (0.0, 0.0)
            || (Avoidance.Perceived(rays) && Avoidance.AvoidanceCommand(rays, p.obstacleAvoidanceSpeed, 0.0) == Some(c))
  {
  }

  /** The inputs of one step. */
  datatype Tick = Tick(now: real, dt: real, current0: real, rays: Rays, sample: real, angle: real,
                       inbox: seq<Message>)

  /** `ss` are the successive states of a fish with parameters `p`, `threshold` and
      `ceiling`, driven by `ts`. */
  ghost predicate IsRun(ss: seq<Sensor>, ts: seq<Tick>, p: WalkParams, threshold: real, ceiling: real)
  {
    ValidParams(p) && |ss| == |ts| + 1 &&
    forall k :: 0 <= k < |ts| ==>
      var t := ts[k];
      ss[k + 1] == SenseStep(ss[k].(mailbox := ss[k].mailbox + t.inbox), p, threshold, ceiling,
                             t.now, t.dt, t.current0, t.rays, t.sample, t.angle)
  }

  /** Along a run with non-negative timesteps, a counter that starts in [0, ceiling) stays
      there. */
  lemma {:induction false} RunCounterBounded(ss: seq<Sensor>, ts: seq<Tick>, p: WalkParams,
                                             threshold: real, ceiling: real, k: nat)
    requires IsRun(ss, ts, p, threshold, ceiling) && k < |ss|
    requires 0.0 <= ss[0].counter < ceiling
    requires forall i :: 0 <= i < |ts| ==> ts[i].dt >= 0.0
    ensures 0.0 <= ss[k].counter < ceiling
  {
    if k > 0 {
      RunCounterBounded(ss, ts, p, threshold, ceiling, k - 1);
      var i := k - 1;
      var t := ts[i];
      var s := ss[i].(mailbox := ss[i].mailbox + t.inbox);
      CounterBounded(s.(walk := s.walk.(time := t.now)), t.dt, t.current0, threshold, ceiling);
    }
  }

  class ControllerAFish {
    const params: WalkParams
    const counterThreshold: real
    const counterMax: real

    var state: Mode
    var time: real
    var exploreDuration: real
    var exploreStartTime: real
    var turnPreviousState: Mode
    var turnDuration: real
    var turnStartTime: real
    var turnSign: real
    var counter: real
    var actifPassif: int

    // last commands issued to the devices, and the transceiver's queue
    var propellerLeft: real
    var propellerRight: real
    var colour: Colour
    var polarization: seq<real>
    var sent: nat
    var mailbox: seq<Message>

    function WalkView(): Walker
      reads this
    {
      Walker(state, time, exploreDuration, exploreStartTime, turnPreviousState,
             turnDuration, turnStartTime, turnSign, propellerLeft, propellerRight, colour)
    }

    function View(): Sensor
      reads this
    {
      Sensor(WalkView(), counter, actifPassif, polarization, sent, mailbox)
    }

    ghost predicate Valid()
      reads this
    {
      ValidParams(params) && SensorInv(View())
    }

    /** The header holding the initial counter, active-passive flag, threshold and ceiling
        is not part of this model: they are given here. */
    constructor (p: WalkParams, threshold: real, ceiling: real, counter0: real, actifPassif0: int, sample: real)
      requires ValidParams(p) && sample >= 0.0 && (actifPassif0 == 0 || actifPassif0 == 1)
      ensures params == p && counterThreshold == threshold && counterMax == ceiling && Valid()
      ensures View() == Sensor(FishReset(Initial, p, sample), counter0, actifPassif0, [], 0, [])
    {
      params, counterThreshold, counterMax := p, threshold, ceiling;
      state, time := Explore, 0.0;
      exploreDuration, exploreStartTime := 0.0, 0.0;
      turnPreviousState, turnDuration, turnStartTime, turnSign := Explore, 0.0, 0.0, 1.0;
      counter, actifPassif := counter0, actifPassif0;
      propellerLeft, propellerRight, colour := 0.0, 0.0, Yellow;
      polarization, sent, mailbox := [], 0, [];
      new;
      Reset(sample);
    }

    /** One step at clock `now` with timestep `dt`; `current0` is the current read on
        electrode 0. */
    method Step(now: real, dt: real, current0: real, rays: Rays, sample: real, angle: real)
      requires Valid() && sample >= 0.0
      modifies this
      ensures Valid()
      ensures View() == SenseStep(old(View()), params, counterThreshold, counterMax, now, dt, current0, rays, sample, angle)
    {
      time := now;
      ghost var clocked := View();
      DutyCycle(dt, current0);
      ghost var duty := View();
      Communicate();
      ghost var drained := View();
      RunState(rays, sample, angle);
      SenseStepParts(old(View()), params, counterThreshold, counterMax, now, dt, current0, rays, sample, angle,
                     clocked, duty, drained);
    }

    /** One broadcast, then every pending message is received and discarded. */
    method Communicate()
      modifies this
      ensures View() == old(View()).(sent := old(sent) + 1, mailbox := [])
    {
      // send a message
      sent := sent + 1;

      // receive messages
      while mailbox != []
        modifies this`mailbox
        decreases |mailbox|
      {
        mailbox := mailbox[1..];
      }
    }

    method RunState(rays: Rays, sample: real, angle: real)
      requires ValidParams(params) && Inv(WalkView()) && sample >= 0.0
      modifies this
      ensures Inv(WalkView())
      ensures View() == old(View()).(walk := ZeroSpeedStep(old(WalkView()), params, old(time), rays, sample, angle))
    {
      match state {
        case Explore => StateExplore(rays, angle);
        case Turn => StateTurn(sample);
      }
      FishStepKeepsInv(old(WalkView()), params, old(time), rays, sample, angle, params.exploreSpeed * 0.0, params.exploreSpeed * 0.0);
    }

    method DutyCycle(dt: real, current0: real)
      modifies this
      ensures View() == DutyStep(old(View()), dt, current0, counterThreshold, counterMax)
      ensures old(actifPassif) == 0 || old(actifPassif) == 1 ==> actifPassif == 0 || actifPassif == 1
    {
      counter := counter + 1.0 * dt;
      if counter <= counterThreshold {
        // passive
        colour := Yellow;
        polarization := Passive;
        if current0 == 0.0 {
          actifPassif := 0;
        }
        if current0 != 0.0 {
          counter := counter - 1.0 * dt;
          actifPassif := 1;
          colour := Green;
        }
      } else {
        // active
        polarization := Active;
        colour := Red;
      }
      if counter >= counterMax {
        colour := Yellow;
        polarization := Passive;
        counter := 0.0;
        actifPassif := 0;
      }
    }

    method StateExploreInit(sample: real)
      modifies this
      ensures View() == old(View()).(walk := ExploreInit(old(WalkView()), params.exploreMeanDuration, sample))
    {
      exploreDuration := sample * params.exploreMeanDuration;
      exploreStartTime := time;
      state := Explore;
      colour := Yellow;
    }

    method StateExplore(rays: Rays, angle: real)
      requires ValidParams(params)
      modifies this
      ensures View() == old(View()).(walk := FishExploreTick(old(WalkView()), params, rays, angle, params.exploreSpeed * 0.0))
    {
      if time - exploreStartTime > exploreDuration {
        StateTurnInit(Explore, angle);
        return;
      }
      var avoiding := ObstacleAvoidance(rays);
      if avoiding {
        return;
      }
      propellerLeft := params.exploreSpeed * 0.0;
      propellerRight := params.exploreSpeed * 0.0;
    }

    method StateTurnInit(previousState: Mode, angle: real)
      requires params.turnSpeed > 0.0
      modifies this
      ensures View() == old(View()).(walk := FishTurnInit(old(WalkView()), previousState, angle, params.turnSpeed))
    {
      var duration := Abs(angle) / Pi / 3.0 / params.turnSpeed;
      assert duration == FishTurnDuration(angle, params.turnSpeed);
      turnPreviousState := previousState;
      if angle < 0.0 {
        turnSign := 1.0;
      } else {
        turnSign := -1.0;
      }
      turnDuration := duration;
      turnStartTime := time;
      state := Turn;
    }

    method StateTurn(sample: real)
      modifies this
      ensures View() == old(View()).(walk := TurnTick(old(WalkView()), params.exploreMeanDuration, sample, params.exploreSpeed * 0.0))
    {
      if time - turnStartTime > turnDuration {
        match turnPreviousState {
          case Explore => StateExploreInit(sample); return;
          case Turn =>
        }
      }
      propellerLeft := params.exploreSpeed * 0.0;
      propellerRight := params.exploreSpeed * 0.0;
    }

    method ObstacleAvoidance(rays: Rays) returns (avoiding: bool)
      requires params.obstacleAvoidanceThreshold >= 0.0
      modifies this
      ensures avoiding == Avoidance.Perceived(rays)
      ensures View() == old(View()).(walk := Avoid(old(WalkView()), Avoidance.AvoidanceCommand(rays, params.obstacleAvoidanceSpeed, 0.0)))
    {
      var leftSpeed, rightSpeed;
      avoiding, leftSpeed, rightSpeed := Avoidance.ComputeAvoidance(rays, params.obstacleAvoidanceThreshold,
                                                                    params.obstacleAvoidanceSpeed, params.breakSpeed, 0.0);
      if avoiding {
        propellerLeft := leftSpeed;
        propellerRight := rightSpeed;
      }
    }

    /** The transceiver queues a message broadcast by a neighbour. */
    method Deliver(m: Message)
      modifies this
      ensures View() == old(View()).(mailbox := old(mailbox) + [m])
    {
      mailbox := mailbox + [m];
    }

    /** Resets the walk only: the counter and the active-passive flag are left alone. */
    method Reset(sample: real)
      modifies this
      ensures View() == old(View()).(walk := FishReset(old(WalkView()), params, sample))
    {
      time := 0.0;
      exploreDuration := 0.0;
      exploreStartTime := 0.0;
      turnPreviousState := Explore;
      turnDuration := 0.0;
      turnStartTime := 0.0;
      turnSign := 1.0;
      state := Explore;
      ghost var cleared := old(WalkView()).(time := 0.0, exploreDuration := 0.0, exploreStartTime := 0.0,
                                            turnPreviousState := Explore, turnDuration := 0.0, turnStartTime := 0.0,
                                            turnSign := 1.0, state := Explore);
      assert WalkView() == cleared;
      assert View() == old(View()).(walk := cleared);
      StateExploreInit(sample);
    }
  }
}

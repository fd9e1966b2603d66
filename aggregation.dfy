/** The aggregation fish: EXPLORE / TURN / BRAKE / REST. A fish that hears three or more
    neighbours while exploring brakes and then rests; while resting it keeps resting as long
    as the crowd is there and, when few neighbours are close, creeps towards the mean
    bearing of the messages it hears. All four states share one timer pair. */
module Aggregation {
  import opened Common
  import Avoidance

  // parameter defaults of the aggregation controller
  const ObstacleAvoidanceThreshold: real := 0.1
  const ObstacleAvoidanceSpeed: real := 0.5
  const ExploreMeanDuration: real := 5.0
  const ExploreSpeed: real := 0.01
  const RestDuration: real := 30.0
  const BrakeDuration: real := 0.5
  const TurnSpeed: real := 0.3
  const BrakeSpeed: real := 0.05
  const AttractionSpeed: real := 0.2

  /** A neighbour closer than this counts as close. */
  const CloseRange: real := 0.4
  /** Attraction is switched off when more than this many neighbours are close. */
  const MaxCloseNeighbours: nat := 2
  /** This many messages in one step make a crowd. */
  const CrowdSize: nat := 3
  /** Additive bias on both propellers during obstacle avoidance. */
  const AvoidanceBias: real := 0.01

  datatype State = Explore | Turn | Brake | Rest

  /** The controller's variables and the last commands it issued to its devices. */
  datatype Fish = Fish(
    state: State,
    time: real,
    timestep: real,
    stateDuration: real,
    stateStartTime: real,
    turnPreviousState: State,
    turnSign: real,
    messagesReceived: nat,
    msgx: real,
    msgy: real,
    attraction: bool,
    propellerLeft: real,
    propellerRight: real,
    colour: Colour,
    sent: nat,
    mailbox: seq<Message>)

  /** The state a controller object holds before its first reset. */
  const Initial: Fish := Fish(Explore, 0.0, 0.0, 0.0, 0.0, Explore, 1.0, 0, 0.0, 0.0, false,
                              0.0, 0.0, Yellow, 0, [])

  /** Invariant of every reachable fish. */
  predicate Inv(f: Fish)
  {
    f.stateDuration >= 0.0 && (f.turnSign == 1.0 || f.turnSign == -1.0) && f.turnPreviousState == Explore
  }

  /** The only state changes a step can make. */
  predicate Edge(from: State, to: State)
  {
    || (from == Explore && to == Brake)
    || (from == Explore && to == Turn)
    || (from == Turn && to == Explore)
    || (from == Brake && to == Rest)
    || (from == Rest && to == Explore)
  }

  function Drive(f: Fish, left: real, right: real): Fish
  {
    f.(propellerLeft := left, propellerRight := right)
  }

  function ExploreInit(f: Fish, sample: real): Fish
  {
    f.(stateDuration := sample * ExploreMeanDuration, stateStartTime := f.time, state := Explore, colour := Yellow)
  }

  function TurnInit(f: Fish, previous: State, angle: real): Fish
  {
    var sign := TurnSign(angle);
    Drive(f.(turnPreviousState := previous, turnSign := sign,
             stateDuration := FishTurnDuration(angle, TurnSpeed), stateStartTime := f.time, state := Turn),
          TurnSpeed * sign, -TurnSpeed * sign)
  }

  /** Entering BRAKE restarts the shared timer but keeps the previous dwell value: BRAKE
      measures itself against the constant BrakeDuration. */
  function BrakeInit(f: Fish): Fish
  {
    Drive(f.(stateStartTime := f.time, state := Brake, colour := Red), -BrakeSpeed, -BrakeSpeed)
  }

  function RestInit(f: Fish): Fish
  {
    Drive(f.(stateDuration := RestDuration, stateStartTime := f.time, state := Rest, colour := PaleGreen), 0.0, 0.0)
  }

  /** Steering towards the neighbours while resting, from the bearing angle of the mean
      message direction: a slow crawl ahead or back, or a spin at attraction speed. */
  function RestSteering(attraction: bool, angle: real): (c: (real, real))
    ensures !attraction ==> c == (0.0, 0.0)
    ensures c.0 == c.1 || c.0 == -c.1
    ensures Abs(c.0) <= AttractionSpeed && Abs(c.1) <= AttractionSpeed
    ensures attraction && c.0 == c.1 ==> Abs(c.0) == 0.1 * AttractionSpeed
    ensures attraction && c.0 != c.1 ==> c.0 == -c.1 && Abs(c.0) == AttractionSpeed
  {
    if !attraction then (0.0, 0.0)
    else if Abs(angle) < 30.0 * Pi / 180.0 then (AttractionSpeed * 0.1, AttractionSpeed * 0.1)
    else if Abs(angle) > 150.0 * Pi / 180.0 then (-AttractionSpeed * 0.1, -AttractionSpeed * 0.1)
    else if angle < 0.0 then (-AttractionSpeed, AttractionSpeed)
    else (AttractionSpeed, -AttractionSpeed)
  }

  /** Message reduction: count, component mean (zero when none), attraction flag; the
      mailbox ends empty. */
  function Receive(f: Fish): Fish
  {
    var ms := f.mailbox;
    var n := |ms|;
    f.(messagesReceived := n, msgx := Mean(SumX(ms), n), msgy := Mean(SumY(ms), n),
       attraction := n > 0 && CloseCount(ms, CloseRange) <= MaxCloseNeighbours, mailbox := [])
  }

  function ExploreTick(f: Fish, rays: Rays, angle: real): Fish
  {
    if f.messagesReceived >= CrowdSize then BrakeInit(f)
    else if Expired(f.time, f.stateStartTime, f.stateDuration) then TurnInit(f, Explore, angle)
    else
      var c := Avoidance.AvoidanceCommand(rays, ObstacleAvoidanceSpeed, AvoidanceBias);
      if c.Some? then Drive(f, c.value.0, c.value.1) else Drive(f, ExploreSpeed, ExploreSpeed)
  }

  function TurnTick(f: Fish, sample: real): Fish
  {
    if Expired(f.time, f.stateStartTime, f.stateDuration) && f.turnPreviousState == Explore
    then ExploreInit(f, sample)
    else f
  }

  function BrakeTick(f: Fish): Fish
  {
    if Expired(f.time, f.stateStartTime, BrakeDuration) then RestInit(f) else f
  }

  function RestTick(f: Fish, sample: real, atan2: (real, real) -> real): Fish
  {
    if Expired(f.time, f.stateStartTime, f.stateDuration) then ExploreInit(f, sample)
    else
      var g := if f.messagesReceived >= CrowdSize then f.(stateStartTime := f.time) else f;
      var c := RestSteering(g.attraction, atan2(g.msgy, g.msgx));
      Drive(g, c.0, c.1)
  }

  /** One controller step at clock `now`: broadcast once, reduce the mailbox, then run the
      active state. `sample` is the exponential draw used if EXPLORE is entered, `angle` the
      uniform angle used if TURN is entered, `atan2` the arc tangent of the C library. */
  function AggStep(f: Fish, now: real, dt: real, rays: Rays, sample: real, angle: real,
                   atan2: (real, real) -> real): Fish
  {
    Dispatch(Receive(f.(time := now, timestep := dt, sent := f.sent + 1)), rays, sample, angle, atan2)
  }

  lemma DispatchKeepsInv(f: Fish, rays: Rays, sample: real, angle: real, atan2: (real, real) -> real)
    requires Inv(f) && sample >= 0.0
    ensures Inv(Dispatch(Receive(f), rays, sample, angle, atan2))
  {
  }

  /** The behaviour of the active state, after the messages have been reduced. */
  function Dispatch(f: Fish, rays: Rays, sample: real, angle: real, atan2: (real, real) -> real): Fish
  {
    match f.state
    case Explore => ExploreTick(f, rays, angle)
    case Turn => TurnTick(f, sample)
    case Rest => RestTick(f, sample, atan2)
    case Brake => BrakeTick(f)
  }

  function AggReset(f: Fish, sample: real): Fish
  {
    ExploreInit(f.(time := 0.0, timestep := 0.0, stateDuration := 0.0, stateStartTime := 0.0,
                   turnPreviousState := Explore, turnSign := 1.0, state := Explore), sample)
  }

  /** The speed parameters are positive (so the turn dwell is well defined), BRAKE and REST
      dwell for fixed times, and only EXPLORE has a random dwell. */
  lemma Defaults()
    ensures ObstacleAvoidanceSpeed > 0.0 && ExploreSpeed > 0.0 && TurnSpeed > 0.0
    ensures BrakeSpeed > 0.0 && AttractionSpeed > 0.0
    ensures BrakeDuration == 0.5 && RestDuration == 30.0 && ExploreMeanDuration == 5.0
  {
  }

  lemma StepKeepsInv(f: Fish, now: real, dt: real, rays: Rays, sample: real, angle: real,
                     atan2: (real, real) -> real)
    requires Inv(f) && sample >= 0.0
    ensures Inv(AggStep(f, now, dt, rays, sample, angle, atan2))
  {
  }

  /** Every step broadcasts exactly once and reduces the whole mailbox: the count, the
      component means (zero with no message) and the attraction flag, which is on exactly
      when something arrived and at most two emitters were close. */
  lemma StepReducesMailbox(f: Fish, now: real, dt: real, rays: Rays, sample: real, angle: real,
                           atan2: (real, real) -> real)
    ensures var v := AggStep(f, now, dt, rays, sample, angle, atan2);
            && v.mailbox == [] && v.sent == f.sent + 1
            && v.messagesReceived == |f.mailbox|
            && (f.mailbox == [] ==> v.msgx == 0.0 && v.msgy == 0.0)
            && (f.mailbox != [] ==>
                  v.msgx * (|f.mailbox| as real) == SumX(f.mailbox) && v.msgy * (|f.mailbox| as real) == SumY(f.mailbox))
            && (v.attraction <==> |f.mailbox| > 0 && CloseCount(f.mailbox, CloseRange) <= 2)
  {
  }

  /** A step changes the state only along the five edges of the automaton. */
  lemma StepEdges(f: Fish, now: real, dt: real, rays: Rays, sample: real, angle: real,
                  atan2: (real, real) -> real)
    ensures var v := AggStep(f, now, dt, rays, sample, angle, atan2);
            v.state == f.state || Edge(f.state, v.state)
  {
  }

  /** In EXPLORE a crowd of three or more messages brakes, before the explore timer is
      even looked at; otherwise EXPLORE turns exactly on strict expiry. */
  lemma ExploreTransitions(f: Fish, now: real, dt: real, rays: Rays, sample: real, angle: real,
                           atan2: (real, real) -> real)
    requires f.state == Explore
    ensures var v := AggStep(f, now, dt, rays, sample, angle, atan2);
            && (|f.mailbox| >= 3 ==>
                  && v.state == Brake && v.stateStartTime == now && v.stateDuration == f.stateDuration
                  && v.propellerLeft == -BrakeSpeed && v.propellerRight == -BrakeSpeed)
            && (|f.mailbox| < 3 ==> (v.state == Turn <==> now - f.stateStartTime > f.stateDuration))
            && (v.state == Turn ==>
                  && v.turnSign == TurnSign(angle) && v.stateDuration == FishTurnDuration(angle, TurnSpeed)
                  && v.stateStartTime == now
                  && v.propellerLeft == TurnSpeed * v.turnSign && v.propellerRight == -TurnSpeed * v.turnSign)
            && (v.state == Explore ==>
                  && v.stateStartTime == f.stateStartTime && v.stateDuration == f.stateDuration
                  && (Avoidance.Perceived(rays) ==>
                        Avoidance.AvoidanceCommand(rays, ObstacleAvoidanceSpeed, AvoidanceBias)
                          == Some((v.propellerLeft, v.propellerRight)))
                  && (!Avoidance.Perceived(rays) ==>
                        v.propellerLeft == ExploreSpeed && v.propellerRight == ExploreSpeed))
  {
  }

  /** TURN goes back to EXPLORE exactly on strict expiry, with a fresh exponential dwell;
      no propeller command is issued in TURN after its entry. */
  lemma TurnTransitions(f: Fish, now: real, dt: real, rays: Rays, sample: real, angle: real,
                        atan2: (real, real) -> real)
    requires Inv(f) && f.state == Turn
    ensures var v := AggStep(f, now, dt, rays, sample, angle, atan2);
            && (v.state == Explore <==> now - f.stateStartTime > f.stateDuration)
            && (v.state == Explore ==> v.stateStartTime == now && v.stateDuration == sample * ExploreMeanDuration)
            && v.propellerLeft == f.propellerLeft && v.propellerRight == f.propellerRight
  {
  }

  /** BRAKE goes to REST exactly when more than BrakeDuration has elapsed; REST is entered
      with the fixed dwell RestDuration and stopped propellers. */
  lemma BrakeTransitions(f: Fish, now: real, dt: real, rays: Rays, sample: real, angle: real,
                         atan2: (real, real) -> real)
    requires f.state == Brake
    ensures var v := AggStep(f, now, dt, rays, sample, angle, atan2);
            && (v.state == Rest <==> now - f.stateStartTime > BrakeDuration)
            && (v.state == Rest ==>
                  && v.stateDuration == RestDuration && v.stateStartTime == now
                  && v.propellerLeft == 0.0 && v.propellerRight == 0.0)
            && (v.state == Brake ==> v.propellerLeft == f.propellerLeft && v.propellerRight == f.propellerRight)
  {
  }

  /** REST checks its timer before the crowd: once expired it explores even in a crowd, with
      a fresh dwell starting now and no propeller command that step. Before expiry a crowd
      restarts the timer at `now`; the propellers follow RestSteering. */
  lemma RestTransitions(f: Fish, now: real, dt: real, rays: Rays, sample: real, angle: real,
                        atan2: (real, real) -> real)
    requires f.state == Rest
    ensures var v := AggStep(f, now, dt, rays, sample, angle, atan2);
            && (v.state == Explore <==> now - f.stateStartTime > f.stateDuration)
            && (v.state == Explore ==>
                  && v.stateStartTime == now && v.stateDuration == sample * ExploreMeanDuration
                  && v.colour == Yellow
                  && v.propellerLeft == f.propellerLeft && v.propellerRight == f.propellerRight)
            && (v.state == Rest ==>
                  && v.stateDuration == f.stateDuration
                  && v.stateStartTime == (if |f.mailbox| >= 3 then now else f.stateStartTime)
                  && (v.propellerLeft, v.propellerRight) == RestSteering(v.attraction, atan2(v.msgy, v.msgx)))
  {
  }

  /** Steering at the reference bearings: 0 crawls ahead, ±pi crawls back, ±pi/2 spins. */
  lemma RestSteeringHeadings()
    ensures RestSteering(true, 0.0) == (0.1 * AttractionSpeed, 0.1 * AttractionSpeed)
    ensures RestSteering(true, Pi) == (-0.1 * AttractionSpeed, -0.1 * AttractionSpeed)
    ensures RestSteering(true, -Pi) == (-0.1 * AttractionSpeed, -0.1 * AttractionSpeed)
    ensures RestSteering(true, Pi / 2.0) == (AttractionSpeed, -AttractionSpeed)
    ensures RestSteering(true, -Pi / 2.0) == (-AttractionSpeed, AttractionSpeed)
  {
  }

  /** A bearing mirrored about the heading gives the mirrored command. */
  lemma RestSteeringMirror(attraction: bool, angle: real)
    ensures var c := RestSteering(attraction, angle);
            RestSteering(attraction, -angle) == (c.1, c.0)
  {
  }

  /** The inputs of one step: clock, timestep, rays, the two draws and the messages the
      medium delivered since the previous step. */
  datatype Tick = Tick(now: real, dt: real, rays: Rays, sample: real, angle: real, inbox: seq<Message>)

  /** `fs` are the successive states of a fish driven by `ts`. */
  ghost predicate IsRun(fs: seq<Fish>, ts: seq<Tick>, atan2: (real, real) -> real)
  {
    |fs| == |ts| + 1 &&
    forall k :: 0 <= k < |ts| ==>
      fs[k + 1] == AggStep(fs[k].(mailbox := fs[k].mailbox + ts[k].inbox),
                           ts[k].now, ts[k].dt, ts[k].rays, ts[k].sample, ts[k].angle, atan2)
  }

  /** A resting fish stays at rest through every step whose clock lies within the dwell of
      the REST entry, whatever it hears: crowds only push its timer later. */
  lemma {:induction false} RestHeld(fs: seq<Fish>, ts: seq<Tick>, atan2: (real, real) -> real, k: nat)
    requires IsRun(fs, ts, atan2) && k < |fs|
    requires fs[0].state == Rest
    requires forall i :: 0 <= i < |ts| ==>
               fs[0].stateStartTime <= ts[i].now <= fs[0].stateStartTime + fs[0].stateDuration
    ensures fs[k].state == Rest && fs[k].stateDuration == fs[0].stateDuration
    ensures fs[k].stateStartTime >= fs[0].stateStartTime
  {
    if k > 0 {
      RestHeld(fs, ts, atan2, k - 1);
      var t := ts[k - 1];
      var g := fs[k - 1].(mailbox := fs[k - 1].mailbox + t.inbox);
      RestTransitions(g, t.now, t.dt, t.rays, t.sample, t.angle, atan2);
    }
  }

  class ControllerAFish {
    var state: State
    var time: real
    var timestep: real
    var stateDuration: real
    var stateStartTime: real
    var turnPreviousState: State
    var turnSign: real
    var messagesReceived: nat
    var msgx: real
    var msgy: real
    var attraction: bool

    // last commands issued to the devices, and the transceiver's queue
    var propellerLeft: real
    var propellerRight: real
    var colour: Colour
    var sent: nat
    var mailbox: seq<Message>

    function View(): Fish
      reads this
    {
      Fish(state, time, timestep, stateDuration, stateStartTime, turnPreviousState, turnSign,
           messagesReceived, msgx, msgy, attraction, propellerLeft, propellerRight, colour, sent, mailbox)
    }

    ghost predicate Valid()
      reads this
    {
      Inv(View())
    }

    constructor (sample: real)
      requires sample >= 0.0
      ensures Valid() && !attraction && mailbox == [] && sent == 0
      ensures View() == AggReset(Initial, sample)
    {
      state, time, timestep := Explore, 0.0, 0.0;
      stateDuration, stateStartTime := 0.0, 0.0;
      turnPreviousState, turnSign := Explore, 1.0;
      messagesReceived, msgx, msgy := 0, 0.0, 0.0;
      attraction := false;
      propellerLeft, propellerRight, colour := 0.0, 0.0, Yellow;
      sent, mailbox := 0, [];
      new;
      Reset(sample);
    }

    method Step(now: real, dt: real, rays: Rays, sample: real, angle: real, atan2: (real, real) -> real)
      requires Valid() && sample >= 0.0
      modifies this
      ensures Valid()
      ensures View() == Dispatch(Receive(old(View()).(time := now, timestep := dt, sent := old(sent) + 1)), rays, sample, angle, atan2)
    {
      time := now;
      timestep := dt;

      // send a message in all directions
      sent := sent + 1;
      ghost var sending := View();
      assert sending == old(View()).(time := now, timestep := dt, sent := old(sent) + 1);
      ReceiveMessages();
      RunState(rays, sample, angle, atan2);
      DispatchKeepsInv(sending, rays, sample, angle, atan2);
    }

    method RunState(rays: Rays, sample: real, angle: real, atan2: (real, real) -> real)
      modifies this
      ensures View() == Dispatch(old(View()), rays, sample, angle, atan2)
    {
      match state {
        case Explore => StateExplore(rays, angle);
        case Turn => StateTurn(sample);
        case Rest => StateRest(sample, atan2);
        case Brake => StateBrake();
      }
    }

    /** Drains the transceiver: count, component sums and close neighbours, then the means
        and the attraction flag. */
    method ReceiveMessages()
      modifies this
      ensures View() == Receive(old(View()))
    {
      messagesReceived := 0;
      msgx := 0.0;
      msgy := 0.0;
      var n := 0;
      while mailbox != []
        modifies this`mailbox, this`messagesReceived, this`msgx, this`msgy
        invariant messagesReceived + |mailbox| == |old(mailbox)|
        invariant msgx + SumX(mailbox) == SumX(old(mailbox))
        invariant msgy + SumY(mailbox) == SumY(old(mailbox))
        invariant n + CloseCount(mailbox, CloseRange) == CloseCount(old(mailbox), CloseRange)
        decreases |mailbox|
      {
        var msg := mailbox[0];
        mailbox := mailbox[1..];
        messagesReceived := messagesReceived + 1;
        msgx := msgx + msg.dx;
        msgy := msgy + msg.dy;
        if msg.distance < CloseRange {
          n := n + 1;
        }
      }

      // by default skip attraction
      attraction := false;
      if messagesReceived > 0 {
        msgx := msgx / messagesReceived as real;
        msgy := msgy / messagesReceived as real;
        // at most two neighbours in close range
        if n <= MaxCloseNeighbours {
          attraction := true;
        }
      }
    }

    method StateExploreInit(sample: real)
      modifies this
      ensures View() == ExploreInit(old(View()), sample)
    {
      stateDuration := sample * ExploreMeanDuration;
      stateStartTime := time;
      state := Explore;
      colour := Yellow;
    }

    method StateExplore(rays: Rays, angle: real)
      modifies this
      ensures View() == ExploreTick(old(View()), rays, angle)
    {
      // several messages received: stop
      if messagesReceived >= CrowdSize {
        StateBrakeInit();
        return;
      }
      // time to change direction: turn
      if time - stateStartTime > stateDuration {
        StateTurnInit(Explore, angle);
        return;
      }
      var avoiding := ObstacleAvoidance(rays);
      if avoiding {
        return;
      }
      propellerLeft := ExploreSpeed;
      propellerRight := ExploreSpeed;
    }

    method StateTurnInit(previousState: State, angle: real)
      modifies this
      ensures View() == TurnInit(old(View()), previousState, angle)
    {
      var duration := Abs(angle) / Pi / 3.0 / TurnSpeed;
      assert duration == FishTurnDuration(angle, TurnSpeed);
      turnPreviousState := previousState;
      if angle < 0.0 {
        turnSign := 1.0;
      } else {
        turnSign := -1.0;
      }
      stateDuration := duration;
      stateStartTime := time;
      state := Turn;
      propellerLeft := TurnSpeed * turnSign;
      propellerRight := -TurnSpeed * turnSign;
    }

    method StateTurn(sample: real)
      modifies this
      ensures View() == TurnTick(old(View()), sample)
    {
      if time - stateStartTime > stateDuration {
        match turnPreviousState {
          case Explore => StateExploreInit(sample); return;
          case _ =>
        }
      }
    }

    method StateBrakeInit()
      modifies this
      ensures View() == BrakeInit(old(View()))
    {
      stateStartTime := time;
      state := Brake;
      colour := Red;
      propellerLeft := -BrakeSpeed;
      propellerRight := -BrakeSpeed;
    }

    method StateBrake()
      modifies this
      ensures View() == BrakeTick(old(View()))
    {
      if time - stateStartTime > BrakeDuration {
        StateRestInit();
        return;
      }
    }

    method StateRestInit()
      modifies this
      ensures View() == RestInit(old(View()))
    {
      stateDuration := RestDuration;
      stateStartTime := time;
      state := Rest;
      colour := PaleGreen;
      propellerLeft := 0.0;
      propellerRight := 0.0;
    }

    method StateRest(sample: real, atan2: (real, real) -> real)
      modifies this
      ensures View() == RestTick(old(View()), sample, atan2)
    {
      if time - stateStartTime > stateDuration {
        StateExploreInit(sample);
        return;
      }
      // a crowd keeps the fish resting
      if messagesReceived >= CrowdSize {
        stateStartTime := time;
      }
      // with attraction, slowly drive towards the neighbours
      var ls, rs := 0.0, 0.0;
      if attraction {
        var angle := atan2(msgy, msgx);
        if Abs(angle) < 30.0 * Pi / 180.0 {
          ls := AttractionSpeed * 0.1;
          rs := AttractionSpeed * 0.1;
        } else if Abs(angle) > 150.0 * Pi / 180.0 {
          ls := -AttractionSpeed * 0.1;
          rs := -AttractionSpeed * 0.1;
        } else if angle < 0.0 {
          ls := -AttractionSpeed;
          rs := AttractionSpeed;
        } else {
          ls := AttractionSpeed;
          rs := -AttractionSpeed;
        }
      }
      propellerLeft := ls;
      propellerRight := rs;
    }

    method ObstacleAvoidance(rays: Rays) returns (avoiding: bool)
      modifies this
      ensures avoiding == Avoidance.Perceived(rays)
      ensures var c := Avoidance.AvoidanceCommand(rays, ObstacleAvoidanceSpeed, AvoidanceBias);
              View() == if c.Some? then Drive(old(View()), c.value.0, c.value.1) else old(View())
    {
      var leftSpeed, rightSpeed;
      avoiding, leftSpeed, rightSpeed := Avoidance.ComputeAvoidance(rays, ObstacleAvoidanceThreshold,
                                                                    ObstacleAvoidanceSpeed, BrakeSpeed, AvoidanceBias);
      if avoiding {
        propellerLeft := leftSpeed;
        propellerRight := rightSpeed;
      }
    }

    /** The transceiver queues a message broadcast by a neighbour. */
    method Deliver(m: Message)
      modifies this
      ensures View() == old(View()).(mailbox := old(mailbox) + [m])
    {
      mailbox := mailbox + [m];
    }

    method Reset(sample: real)
      modifies this
      ensures View() == AggReset(old(View()), sample)
    {
      time := 0.0;
      timestep := 0.0;
      stateDuration := 0.0;
      stateStartTime := 0.0;
      turnPreviousState := Explore;
      turnSign := 1.0;
      state := Explore;
      assert View() == old(View()).(time := 0.0, timestep := 0.0, stateDuration := 0.0, stateStartTime := 0.0,
                                    turnPreviousState := Explore, turnSign := 1.0, state := Explore);
      StateExploreInit(sample);
    }
  }
}

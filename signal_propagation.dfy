/** The signal-propagation fish. Outside its refractory period a fish blinks (broadcasts and
    shows red) either spontaneously, with probability blinkProba per second, or to relay a
    blink it has just received; it then steers towards the mean direction of the messages
    heard. Inside the refractory period it keeps its colour and its previous course. */
module SignalPropagation {
  import opened Common

  // parameter defaults of the signal-propagation controller
  const RefractoryPeriod: real := 2.0
  const BlinkProba: real := 0.05
  const Speed: real := 0.6
  const ForwardCoeff: real := 0.02

  /** The controller's variables and the last commands it issued to its devices. */
  datatype Relay = Relay(
    lastBlinkTime: real,
    leftSpeed: real,
    rightSpeed: real,
    propellerLeft: real,
    propellerRight: real,
    colour: Colour,
    sent: nat,
    mailbox: seq<Message>)

  /** The state a controller object holds before its first reset. */
  const Initial: Relay := Relay(0.0, 0.0, 0.0, 0.0, 0.0, Yellow, 0, [])

  /** Course towards the emitters, from the mean bearing (its y component and its angle):
      a slow crawl when they are ahead or behind, a spin at full speed otherwise (towards
      the side where y lies), and standing still when nothing was heard. */
  function Steering(received: bool, y: real, angle: real): (c: (real, real))
    ensures !received ==> c == (0.0, 0.0)
    ensures c.0 == c.1 || c.0 == -c.1
    ensures Abs(c.0) <= Speed && Abs(c.1) <= Speed
    ensures received && c.0 == c.1 ==> Abs(c.0) == Speed * ForwardCoeff
    ensures received && c.0 != c.1 ==> c.0 == -c.1 && Abs(c.0) == Speed
  {
    if !received then (0.0, 0.0)
    else if Abs(angle) < 30.0 * Pi / 180.0 then (Speed * ForwardCoeff, Speed * ForwardCoeff)
    else if Abs(angle) > 150.0 * Pi / 180.0 then (-Speed * ForwardCoeff, -Speed * ForwardCoeff)
    else if y < 0.0 then (-Speed, Speed)
    else (Speed, -Speed)
  }

  /** Within the refractory period at clock `now`. */
  predicate Refractory(r: Relay, now: real)
  {
    now <= r.lastBlinkTime + RefractoryPeriod
  }

  /** A step at `now` with timestep `dt` and uniform draw `u` blinks: out of the refractory
      period, and either the spontaneous draw fires or some message is pending (a relay). */
  predicate Blinks(r: Relay, now: real, dt: real, u: real)
  {
    !Refractory(r, now) && (u < BlinkProba * dt || r.mailbox != [])
  }

  /** The step once the messages have been reduced to `received` and the mean bearing
      (`y`, `angle`): the blink decision and steering outside the refractory period, then
      the stored course goes to the propellers. */
  function Response(r: Relay, now: real, dt: real, u: real, received: bool, y: real, angle: real): Relay
  {
    var s :=
      if now > r.lastBlinkTime + RefractoryPeriod then
        var b := if u < BlinkProba * dt || received
                 then r.(sent := r.sent + 1, lastBlinkTime := now, colour := Red)
                 else r.(colour := Yellow);
        var c := Steering(received, y, angle);
        b.(leftSpeed := c.0, rightSpeed := c.1)
      else r;
    s.(propellerLeft := s.leftSpeed, propellerRight := s.rightSpeed)
  }

  /** One controller step: drain the receive queue into the mean bearing, then respond.
      `atan2` is the arc tangent of the C library. */
  function RelayStep(r: Relay, now: real, dt: real, u: real, atan2: (real, real) -> real): Relay
  {
    var ms := r.mailbox;
    var x := Mean(SumX(ms), |ms|);
    var y := Mean(SumY(ms), |ms|);
    Response(r.(mailbox := []), now, dt, u, ms != [], y, atan2(y, x))
  }

  function RelayReset(r: Relay): Relay
  {
    r.(lastBlinkTime := 0.0, colour := Yellow, leftSpeed := 0.0, rightSpeed := 0.0)
  }

  /** A step broadcasts once exactly when it blinks, and never more; a blink stamps the
      clock and shows red, a non-blinking step outside the refractory period shows yellow.
      The queue is always drained. */
  lemma BlinkRule(r: Relay, now: real, dt: real, u: real, atan2: (real, real) -> real)
    ensures var v := RelayStep(r, now, dt, u, atan2);
            && v.mailbox == []
            && (v.sent == r.sent + 1 <==> Blinks(r, now, dt, u))
            && (v.sent == r.sent || v.sent == r.sent + 1)
            && (Blinks(r, now, dt, u) ==> v.lastBlinkTime == now && v.colour == Red)
            && (!Blinks(r, now, dt, u) ==> v.lastBlinkTime == r.lastBlinkTime)
            && (!Refractory(r, now) && !Blinks(r, now, dt, u) ==> v.colour == Yellow)
  {
  }

  /** Inside the refractory period the messages are discarded without effect and the fish
      keeps its colour and its previous course. */
  lemma RefractoryKeepsCourse(r: Relay, now: real, dt: real, u: real, atan2: (real, real) -> real)
    requires Refractory(r, now)
    ensures RelayStep(r, now, dt, u, atan2)
            == r.(mailbox := [], propellerLeft := r.leftSpeed, propellerRight := r.rightSpeed)
  {
  }

  /** Outside the refractory period the course is recomputed from the messages of this
      step: standing still with none, steering towards their mean bearing otherwise. */
  lemma SteeringFollowsMessages(r: Relay, now: real, dt: real, u: real, atan2: (real, real) -> real)
    requires !Refractory(r, now)
    ensures var v := RelayStep(r, now, dt, u, atan2);
            var y := Mean(SumY(r.mailbox), |r.mailbox|);
            var x := Mean(SumX(r.mailbox), |r.mailbox|);
            && (v.leftSpeed, v.rightSpeed) == Steering(r.mailbox != [], y, atan2(y, x))
            && v.propellerLeft == v.leftSpeed && v.propellerRight == v.rightSpeed
            && (r.mailbox == [] ==> v.propellerLeft == 0.0 && v.propellerRight == 0.0)
  {
  }

  /** Steering at the reference bearings: ahead crawls forward, behind crawls back,
      abeam spins towards the side of the emitters. */
  lemma SteeringHeadings()
    ensures Steering(true, 0.0, 0.0) == (Speed * ForwardCoeff, Speed * ForwardCoeff)
    ensures Steering(true, 0.0, Pi) == (-Speed * ForwardCoeff, -Speed * ForwardCoeff)
    ensures Steering(true, 1.0, Pi / 2.0) == (Speed, -Speed)
    ensures Steering(true, -1.0, -Pi / 2.0) == (-Speed, Speed)
  {
  }

  /** Emitters mirrored about the heading give the mirrored command. */
  lemma SteeringMirror(received: bool, y: real, angle: real)
    requires y != 0.0
    ensures var c := Steering(received, y, angle);
            Steering(received, -y, -angle) == (c.1, c.0)
  {
  }

  /** The inputs of one step: clock, timestep, uniform draw and the messages the medium
      delivered since the previous step. */
  datatype Tick = Tick(now: real, dt: real, u: real, inbox: seq<Message>)

  function Pending(r: Relay, t: Tick): Relay
  {
    r.(mailbox := r.mailbox + t.inbox)
  }

  /** `rs` are the successive states of a fish driven by `ts`. */
  ghost predicate IsRun(rs: seq<Relay>, ts: seq<Tick>, atan2: (real, real) -> real)
  {
    |rs| == |ts| + 1 &&
    forall k :: 0 <= k < |ts| ==> rs[k + 1] == RelayStep(Pending(rs[k], ts[k]), ts[k].now, ts[k].dt, ts[k].u, atan2)
  }

  /** Step k of the run blinks. */
  ghost predicate BlinksAt(rs: seq<Relay>, ts: seq<Tick>, k: nat)
    requires k < |ts| && |rs| == |ts| + 1
  {
    Blinks(Pending(rs[k], ts[k]), ts[k].now, ts[k].dt, ts[k].u)
  }

  /** The last blink time never decreases along a run: it only moves to a clock that is
      past it by more than the refractory period. */
  lemma {:induction false} LastBlinkMonotone(rs: seq<Relay>, ts: seq<Tick>, atan2: (real, real) -> real, i: nat, j: nat)
    requires IsRun(rs, ts, atan2) && i <= j < |rs|
    ensures rs[i].lastBlinkTime <= rs[j].lastBlinkTime
  {
    if i < j {
      LastBlinkMonotone(rs, ts, atan2, i, j - 1);
      var k := j - 1;
      BlinkRule(Pending(rs[k], ts[k]), ts[k].now, ts[k].dt, ts[k].u, atan2);
    }
  }

  /** Two blinks of one fish are more than a refractory period apart. */
  lemma BlinksSeparated(rs: seq<Relay>, ts: seq<Tick>, atan2: (real, real) -> real, i: nat, j: nat)
    requires IsRun(rs, ts, atan2) && i < j < |ts|
    requires BlinksAt(rs, ts, i) && BlinksAt(rs, ts, j)
    ensures ts[j].now > ts[i].now + RefractoryPeriod
  {
    BlinkRule(Pending(rs[i], ts[i]), ts[i].now, ts[i].dt, ts[i].u, atan2);
    LastBlinkMonotone(rs, ts, atan2, i + 1, j);
  }

  /** From a reset (last blink at 0) no fish blinks before the refractory period is over. */
  lemma NoEarlyBlink(rs: seq<Relay>, ts: seq<Tick>, atan2: (real, real) -> real, k: nat)
    requires IsRun(rs, ts, atan2) && k < |ts|
    requires rs[0].lastBlinkTime == 0.0
    requires BlinksAt(rs, ts, k)
    ensures ts[k].now > RefractoryPeriod
  {
    LastBlinkMonotone(rs, ts, atan2, 0, k);
  }

  class ControllerAFish {
    var lastBlinkTime: real
    var leftSpeed: real
    var rightSpeed: real

    // last commands issued to the devices, and the transceiver's queue
    var propellerLeft: real
    var propellerRight: real
    var colour: Colour
    var sent: nat
    var mailbox: seq<Message>

    function View(): Relay
      reads this
    {
      Relay(lastBlinkTime, leftSpeed, rightSpeed, propellerLeft, propellerRight, colour, sent, mailbox)
    }

    constructor ()
      ensures View() == RelayReset(Initial)
    {
      lastBlinkTime, leftSpeed, rightSpeed := 0.0, 0.0, 0.0;
      propellerLeft, propellerRight, colour := 0.0, 0.0, Yellow;
      sent, mailbox := 0, [];
      new;
      Reset();
    }

    /** One step at clock `now` with timestep `dt`; `u` is the uniform draw in [0, 1). */
    method Step(now: real, dt: real, u: real, atan2: (real, real) -> real)
      modifies this
      ensures View() == RelayStep(old(View()), now, dt, u, atan2)
    {
      // if a message is received, record data
      var messageReceived := false;
      var x, y := 0.0, 0.0;
      var n: nat := 0;
      while mailbox != []
        modifies this`mailbox
        invariant n + |mailbox| == |old(mailbox)|
        invariant x + SumX(mailbox) == SumX(old(mailbox))
        invariant y + SumY(mailbox) == SumY(old(mailbox))
        invariant messageReceived <==> n > 0
        decreases |mailbox|
      {
        var msg := mailbox[0];
        mailbox := mailbox[1..];
        messageReceived := true;
        x := x + msg.dx;
        y := y + msg.dy;
        n := n + 1;
      }
      if messageReceived {
        x := x / n as real;
        y := y / n as real;
      }
      Respond(now, dt, u, messageReceived, y, atan2(y, x));
    }

    method Respond(now: real, dt: real, u: real, messageReceived: bool, y: real, angle: real)
      modifies this
      ensures View() == Response(old(View()), now, dt, u, messageReceived, y, angle)
    {
      // not in refractory?
      if now > lastBlinkTime + RefractoryPeriod {
        if u < BlinkProba * dt {
          // spontaneous blink
          sent := sent + 1;
          lastBlinkTime := now;
          colour := Red;
        } else if messageReceived {
          // relay blink
          sent := sent + 1;
          lastBlinkTime := now;
          colour := Red;
        } else {
          colour := Yellow;
        }

        // get attracted towards message emitters
        if messageReceived {
          if Abs(angle) < 30.0 * Pi / 180.0 {
            leftSpeed := Speed * ForwardCoeff;
            rightSpeed := Speed * ForwardCoeff;
          } else if Abs(angle) > 150.0 * Pi / 180.0 {
            leftSpeed := -Speed * ForwardCoeff;
            rightSpeed := -Speed * ForwardCoeff;
          } else if y < 0.0 {
            leftSpeed := -Speed;
            rightSpeed := Speed;
          } else {
            leftSpeed := Speed;
            rightSpeed := -Speed;
          }
        } else {
          // no message received, stay still
          leftSpeed := 0.0;
          rightSpeed := 0.0;
        }
      }
      propellerLeft := leftSpeed;
      propellerRight := rightSpeed;
    }

    /** The transceiver queues a message broadcast by a neighbour. */
    method Deliver(m: Message)
      modifies this
      ensures View() == old(View()).(mailbox := old(mailbox) + [m])
    {
      mailbox := mailbox + [m];
    }

    method Reset()
      modifies this
      ensures View() == RelayReset(old(View()))
    {
      lastBlinkTime := 0.0;
      colour := Yellow;
      leftSpeed := 0.0;
      rightSpeed := 0.0;
    }
  }
}

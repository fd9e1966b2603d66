/** The firefly-synchronisation fish: a pulse-coupled oscillator. Its counter decays
    exponentially; hearing a flash outside the refractory period advances it by epsilon
    (once per step, however many flashes arrive); when the counter falls to 0.1 the fish
    flashes (broadcasts and shows red) and the counter restarts at 1. */
module Firefly {
  import opened Common

  // parameter defaults of the firefly controller
  const Gamma: real := 0.2
  const Epsilon: real := 0.05
  const RefractoryPeriod: real := 0.2
  /** The counter value at or below which the fish flashes. */
  const FireLevel: real := 0.1

  /** The controller's variables and what it did with its devices. */
  datatype Flasher = Flasher(
    counter: real,
    lastBlinkTime: real,
    colour: Colour,
    sent: nat,
    mailbox: seq<Message>)

  /** The state a controller object holds before its first reset. */
  const Initial: Flasher := Flasher(1.0, 0.0, Yellow, 0, [])

  /** The counter after exponential decay over `dt` and the coupling of this step. */
  function Coupled(f: Flasher, now: real, dt: real): real
  {
    var c := f.counter - f.counter * Gamma * dt;
    if now > f.lastBlinkTime + RefractoryPeriod && f.mailbox != [] then c - Epsilon else c
  }

  /** One controller step at clock `now` with timestep `dt`. Whatever happens, the counter
      ends above the firing level and the receive queue ends empty. */
  function FireflyStep(f: Flasher, now: real, dt: real): (v: Flasher)
    ensures v.counter > FireLevel && v.mailbox == []
    ensures v.sent == f.sent || v.sent == f.sent + 1
  {
    var c := Coupled(f, now, dt);
    if c <= FireLevel then f.(counter := 1.0, lastBlinkTime := now, colour := Red, sent := f.sent + 1, mailbox := [])
    else f.(counter := c, colour := Yellow, mailbox := [])
  }

  /** Reset with the uniform draw `u`: the counter starts at `u` and the last flash lies one
      refractory period before time zero. */
  function FireflyReset(f: Flasher, u: real): Flasher
  {
    f.(colour := Yellow, counter := u, lastBlinkTime := -RefractoryPeriod)
  }

  /** The fish flashes exactly when the decayed and coupled counter reaches the firing
      level; a flash stamps the clock, shows red and restarts the counter at 1, otherwise
      the counter keeps the coupled value and the fish shows yellow. */
  lemma FireRule(f: Flasher, now: real, dt: real)
    ensures var v := FireflyStep(f, now, dt);
            && (v.sent == f.sent + 1 <==> Coupled(f, now, dt) <= FireLevel)
            && (v.sent == f.sent + 1 ==> v.counter == 1.0 && v.lastBlinkTime == now && v.colour == Red)
            && (v.sent == f.sent ==>
                  v.counter == Coupled(f, now, dt) && v.lastBlinkTime == f.lastBlinkTime && v.colour == Yellow)
  {
  }

  /** Coupling does not depend on how many flashes were heard in one step. */
  lemma CouplingOncePerStep(f: Flasher, now: real, dt: real, m1: seq<Message>, m2: seq<Message>)
    requires m1 != [] && m2 != []
    ensures FireflyStep(f.(mailbox := m1), now, dt) == FireflyStep(f.(mailbox := m2), now, dt)
  {
  }

  /** Within the refractory period flashes heard are dropped without effect; outside it a
      flash heard advances the counter by exactly epsilon. */
  lemma RefractoryDropsFlashes(f: Flasher, now: real, dt: real)
    ensures now <= f.lastBlinkTime + RefractoryPeriod ==>
              FireflyStep(f, now, dt) == FireflyStep(f.(mailbox := []), now, dt)
    ensures now > f.lastBlinkTime + RefractoryPeriod && f.mailbox != [] ==>
              Coupled(f, now, dt) == Coupled(f.(mailbox := []), now, dt) - Epsilon
  {
  }

  /** With a decay factor gamma * dt in [0, 1], a counter at most 1 stays in (0.1, 1], and
      between two flashes it never grows. */
  lemma CounterBounded(f: Flasher, now: real, dt: real)
    requires f.counter <= 1.0 && 0.0 <= Gamma * dt <= 1.0
    ensures var v := FireflyStep(f, now, dt);
            && FireLevel < v.counter <= 1.0
            && (v.sent == f.sent && f.counter >= 0.0 ==> v.counter <= f.counter)
  {
    var g := Gamma * dt;
    assert f.counter * Gamma * dt == f.counter * g;
    if f.counter >= 0.0 {
      MulNonNegative(f.counter, g);
    } else {
      MulNonNegative(-f.counter, 1.0 - g);
    }
  }

  lemma MulNonNegative(a: real, b: real)
    requires a >= 0.0 && b >= 0.0
    ensures a * b >= 0.0
  {
  }

  /** A reset counter drawn in [0, 1) lies in the bounds that CounterBounded keeps, and a
      step at time 0 right after the reset ignores whatever flashes are pending. */
  lemma ResetState(f: Flasher, u: real, dt: real, pending: seq<Message>)
    requires 0.0 <= u < 1.0
    ensures var v := FireflyReset(f, u);
            && 0.0 <= v.counter <= 1.0 && v.lastBlinkTime == -RefractoryPeriod
            && FireflyStep(v.(mailbox := pending), 0.0, dt) == FireflyStep(v.(mailbox := []), 0.0, dt)
  {
  }

  /** The inputs of one step: clock, timestep and the flashes delivered since the previous
      step. */
  datatype Tick = Tick(now: real, dt: real, inbox: seq<Message>)

  /** `fs` are the successive states of a fish driven by `ts`. */
  ghost predicate IsRun(fs: seq<Flasher>, ts: seq<Tick>)
  {
    |fs| == |ts| + 1 &&
    forall k :: 0 <= k < |ts| ==>
      fs[k + 1] == FireflyStep(fs[k].(mailbox := fs[k].mailbox + ts[k].inbox), ts[k].now, ts[k].dt)
  }

  /** Along a run whose timesteps keep gamma * dt in [0, 1], a counter that starts at most
      1 is at most 1 at every step, and above the firing level after the first. */
  lemma {:induction false} RunCounterBounded(fs: seq<Flasher>, ts: seq<Tick>, k: nat)
    requires IsRun(fs, ts) && k < |fs|
    requires fs[0].counter <= 1.0
    requires forall i :: 0 <= i < |ts| ==> 0.0 <= Gamma * ts[i].dt <= 1.0
    ensures fs[k].counter <= 1.0
    ensures k > 0 ==> fs[k].counter > FireLevel
  {
    if k > 0 {
      RunCounterBounded(fs, ts, k - 1);
      var i := k - 1;
      CounterBounded(fs[i].(mailbox := fs[i].mailbox + ts[i].inbox), ts[i].now, ts[i].dt);
    }
  }

  class ControllerAFish {
    var counter: real
    var lastBlinkTime: real

    // what was done with the devices, and the transceiver's queue
    var colour: Colour
    var sent: nat
    var mailbox: seq<Message>

    function View(): Flasher
      reads this
    {
      Flasher(counter, lastBlinkTime, colour, sent, mailbox)
    }

    /** `u` is the uniform draw in [0, 1) used by the reset. */
    constructor (u: real)
      ensures View() == FireflyReset(Initial, u)
    {
      counter, lastBlinkTime := 1.0, 0.0;
      colour, sent, mailbox := Yellow, 0, [];
      new;
      Reset(u);
    }

    method Step(now: real, dt: real)
      modifies this
      ensures View() == FireflyStep(old(View()), now, dt)
    {
      // update the counter
      counter := counter - counter * Gamma * dt;

      // not in refractory: one pending flash advances the counter
      if now > lastBlinkTime + RefractoryPeriod {
        if mailbox != [] {
          mailbox := mailbox[1..];
          counter := counter - Epsilon;
        }
      }

      // empty the receive queue
      while mailbox != []
        modifies this`mailbox
        decreases |mailbox|
      {
        mailbox := mailbox[1..];
      }

      // flash when the counter has run out
      if counter <= FireLevel {
        sent := sent + 1;
        lastBlinkTime := now;
        colour := Red;
        counter := 1.0;
      } else {
        colour := Yellow;
      }
    }

    /** The transceiver queues a flash seen from a neighbour. */
    method Deliver(m: Message)
      modifies this
      ensures View() == old(View()).(mailbox := old(mailbox) + [m])
    {
      mailbox := mailbox + [m];
    }

    method Reset(u: real)
      modifies this
      ensures View() == FireflyReset(old(View()), u)
    {
      lastBlinkTime := 0.0;
      colour := Yellow;
      counter := u;
      lastBlinkTime := -RefractoryPeriod;
    }
  }
}

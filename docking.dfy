/** The docking mussel: every ten seconds it toggles a buoyancy factor between -1 and 1 and
    commands the ballast with it, but the step always ends by commanding buoyancy 1, so the
    ballast is left at 1 after every step. */
module Docking {

  /** Seconds between two toggles of the buoyancy factor. */
  const TogglePeriod: real := 10.0

  /** The controller's variables and the buoyancy commands sent to the ballast, in order. */
  datatype Mussel = Mussel(lastTime: real, factor: real, ballast: seq<real>)

  /** The factor that follows `factor`: 1 after anything below -0.5, -1 otherwise. */
  function Toggled(factor: real): (r: real)
    ensures r == 1.0 || r == -1.0
    ensures factor == -1.0 ==> r == 1.0
    ensures factor == 1.0 ==> r == -1.0
  {
    if factor < -0.5 then 1.0 else -1.0
  }

  /** A step at `now` toggles: ten seconds or more since the last toggle. */
  predicate Toggles(m: Mussel, now: real)
  {
    now - m.lastTime >= TogglePeriod
  }

  function DockStep(m: Mussel, now: real): Mussel
  {
    var t :=
      if Toggles(m, now) then
        var f := Toggled(m.factor);
        m.(lastTime := now, factor := f, ballast := m.ballast + [f])
      else m;
    t.(ballast := t.ballast + [1.0])
  }

  function DockReset(m: Mussel): Mussel
  {
    m.(lastTime := 0.0, factor := -1.0)
  }

  /** A toggling step flips the factor between -1 and 1, stamps the clock and sends the new
      factor then 1 to the ballast; any other step only sends 1. Either way the last command
      is 1. */
  lemma StepRule(m: Mussel, now: real)
    requires m.factor == 1.0 || m.factor == -1.0
    ensures var v := DockStep(m, now);
            && (v.factor == 1.0 || v.factor == -1.0)
            && (Toggles(m, now) ==>
                  v.factor == -m.factor && v.lastTime == now && v.ballast == m.ballast + [v.factor, 1.0])
            && (!Toggles(m, now) ==> v == m.(ballast := m.ballast + [1.0]))
            && v.ballast[|v.ballast| - 1] == 1.0
  {
  }

  /** The inputs of a run are its clock readings. */
  ghost predicate IsRun(ms: seq<Mussel>, clock: seq<real>)
  {
    |ms| == |clock| + 1 &&
    forall k :: 0 <= k < |clock| ==> ms[k + 1] == DockStep(ms[k], clock[k])
  }

  /** Along a run the factor stays in {-1, 1}. */
  lemma {:induction false} FactorInvariant(ms: seq<Mussel>, clock: seq<real>, i: nat, j: nat)
    requires IsRun(ms, clock) && i <= j < |ms|
    requires ms[i].factor == 1.0 || ms[i].factor == -1.0
    ensures ms[j].factor == 1.0 || ms[j].factor == -1.0
  {
    if i < j {
      FactorInvariant(ms, clock, i, j - 1);
      StepRule(ms[j - 1], clock[j - 1]);
    }
  }

  /** Along a run the time of the last toggle never goes back, whatever the factor. */
  lemma {:induction false} LastTimeMonotone(ms: seq<Mussel>, clock: seq<real>, i: nat, j: nat)
    requires IsRun(ms, clock) && i <= j < |ms|
    ensures ms[i].lastTime <= ms[j].lastTime
  {
    if i < j {
      LastTimeMonotone(ms, clock, i, j - 1);
      assert ms[j] == DockStep(ms[j - 1], clock[j - 1]);
    }
  }

  /** After a reset (last toggle at 0) no toggle of a run comes earlier than the toggle
      period, whether or not another toggle follows it. */
  lemma FirstToggleAfterPeriod(ms: seq<Mussel>, clock: seq<real>, i: nat)
    requires IsRun(ms, clock) && i < |clock|
    requires Toggles(ms[i], clock[i]) && ms[0].lastTime == 0.0
    ensures clock[i] >= TogglePeriod
  {
    LastTimeMonotone(ms, clock, 0, i);
  }

  /** Two toggles of a run are at least the toggle period apart, and after a reset
      (last toggle at 0) the first one comes no earlier than the period. */
  lemma TogglesSeparated(ms: seq<Mussel>, clock: seq<real>, i: nat, j: nat)
    requires IsRun(ms, clock) && i < j < |clock|
    requires Toggles(ms[i], clock[i]) && Toggles(ms[j], clock[j])
    ensures clock[j] - clock[i] >= TogglePeriod
    ensures ms[0].lastTime == 0.0 ==> clock[i] >= TogglePeriod
  {
    if ms[0].lastTime == 0.0 {
      FirstToggleAfterPeriod(ms, clock, i);
    }
    assert ms[i + 1] == DockStep(ms[i], clock[i]);
    LastTimeMonotone(ms, clock, i + 1, j);
  }

  class ControllerAMussel {
    var lastTime: real
    var factor: real
    /** Buoyancy commands sent to the ballast, oldest first. */
    var ballast: seq<real>

    function View(): Mussel
      reads this
    {
      Mussel(lastTime, factor, ballast)
    }

    constructor ()
      ensures View() == Mussel(0.0, -1.0, [])
    {
      lastTime, factor, ballast := 0.0, 0.0, [];
      new;
      Reset();
    }

    method Step(now: real)
      modifies this
      ensures View() == DockStep(old(View()), now)
    {
      if now - lastTime >= TogglePeriod {
        lastTime := now;
        if factor < -0.5 {
          factor := 1.0;
        } else {
          factor := -1.0;
        }
        ballast := ballast + [factor];
      }
      // debugging override of the toggle
      ballast := ballast + [1.0];
    }

    method Reset()
      modifies this
      ensures View() == DockReset(old(View()))
    {
      lastTime := 0.0;
      factor := -1.0;
    }
  }
}

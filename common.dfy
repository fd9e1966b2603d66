/** Values and helpers shared by every behaviour controller: messages, proximity rays,
    dwell timers, the turn-sign convention and the message-reduction sums. */
module Common {

  datatype Option<T> = None | Some(value: T)

  /** Pi, as a positive constant close to M_PI. */
  const Pi: real := 3.141592653589793

  function Abs(x: real): (r: real)
    ensures r >= 0.0
    ensures r == x || r == -x
  {
    if x < 0.0 then -x else x
  }

  /** A received broadcast: bearing (dx, dy) towards the emitter and its distance. */
  datatype Message = Message(dx: real, dy: real, distance: real)

  /** Display colour, as a tag for the RGB values the controllers set (advisory only). */
  datatype Colour = Yellow | Red | PaleGreen | Green

  /** One proximity ray: the value it reads and whether it hit something. */
  datatype Ray = Ray(value: real, hit: bool)

  /** The six rays of a fish: front left up/down, left side, front right up/down, right side. */
  datatype Rays = Rays(frontLU: Ray, frontLD: Ray, sideLeft: Ray,
                       frontRU: Ray, frontRD: Ray, sideRight: Ray)

  /** The dwell-timer expiry test: strictly more than `duration` has elapsed since `start`. */
  predicate Expired(time: real, start: real, duration: real)
  {
    time - start > duration
  }

  /** Turn direction for a drawn angle: +1 exactly when the angle is negative, -1 otherwise. */
  function TurnSign(angle: real): (sign: real)
    ensures sign == 1.0 || sign == -1.0
    ensures sign == 1.0 <==> angle < 0.0
  {
    if angle < 0.0 then 1.0 else -1.0
  }

  /** Fish turn dwell, |angle| / pi / 3 / turnSpeed: never negative, and at most
      1 / (3 turnSpeed) for an angle drawn in [-pi, pi]. */
  function FishTurnDuration(angle: real, turnSpeed: real): (d: real)
    requires turnSpeed > 0.0
    ensures d >= 0.0
    ensures -Pi <= angle <= Pi ==> d <= 1.0 / (3.0 * turnSpeed)
    ensures angle == 0.0 <==> d == 0.0
  {
    var q := Abs(angle) / Pi;
    assert -Pi <= angle <= Pi ==> q <= 1.0;
    var d := q / 3.0 / turnSpeed;
    assert d == q * (1.0 / (3.0 * turnSpeed));
    d
  }

  /** Sum of the x components of the messages, in arrival order. */
  function SumX(ms: seq<Message>): real
  {
    if ms == [] then 0.0 else ms[0].dx + SumX(ms[1..])
  }

  /** Sum of the y components of the messages, in arrival order. */
  function SumY(ms: seq<Message>): real
  {
    if ms == [] then 0.0 else ms[0].dy + SumY(ms[1..])
  }

  /** Number of messages whose emitter is closer than `radius`. */
  function CloseCount(ms: seq<Message>, radius: real): (n: nat)
    ensures n <= |ms|
  {
    if ms == [] then 0
    else (if ms[0].distance < radius then 1 else 0) + CloseCount(ms[1..], radius)
  }

  /** Component mean of `n` values summing to `sum`; zero when there are none. */
  function Mean(sum: real, n: nat): (m: real)
    ensures n == 0 ==> m == 0.0
    ensures n > 0 ==> m * (n as real) == sum
  {
    if n == 0 then 0.0 else sum / n as real
  }

  lemma {:induction false} SumsAppend(a: seq<Message>, b: seq<Message>)
    ensures SumX(a + b) == SumX(a) + SumX(b)
    ensures SumY(a + b) == SumY(a) + SumY(b)
    ensures CloseCount(a + b, 0.4) == CloseCount(a, 0.4) + CloseCount(b, 0.4)
  {
    if a != [] {
      assert (a + b)[1..] == a[1..] + b;
      SumsAppend(a[1..], b);
    } else {
      assert a + b == b;
    }
  }

  /** The reduction does not depend on the order in which two batches of messages arrive. */
  lemma ReductionOrderIndependent(a: seq<Message>, b: seq<Message>)
    ensures SumX(a + b) == SumX(b + a) && SumY(a + b) == SumY(b + a)
    ensures CloseCount(a + b, 0.4) == CloseCount(b + a, 0.4)
  {
    SumsAppend(a, b);
    SumsAppend(b, a);
  }

  /** Messages whose bearing components lie in [-1, 1] (unit direction vectors). */
  predicate UnitBearings(ms: seq<Message>)
  {
    forall i :: 0 <= i < |ms| ==> Abs(ms[i].dx) <= 1.0 && Abs(ms[i].dy) <= 1.0
  }

  lemma {:induction false} SumsBounded(ms: seq<Message>)
    requires UnitBearings(ms)
    ensures Abs(SumX(ms)) <= |ms| as real && Abs(SumY(ms)) <= |ms| as real
  {
    if ms != [] {
      assert UnitBearings(ms[1..]) by {
        forall i | 0 <= i < |ms[1..]|
          ensures Abs(ms[1..][i].dx) <= 1.0 && Abs(ms[1..][i].dy) <= 1.0
        {
          assert ms[1..][i] == ms[i + 1];
        }
      }
      SumsBounded(ms[1..]);
    }
  }

  /** The mean bearing of unit-direction messages lies in the unit square. */
  lemma MeanBearingBounded(ms: seq<Message>)
    requires UnitBearings(ms)
    ensures Abs(Mean(SumX(ms), |ms|)) <= 1.0 && Abs(Mean(SumY(ms), |ms|)) <= 1.0
  {
    SumsBounded(ms);
    if |ms| > 0 {
      MeanOfBounded(SumX(ms), |ms|);
      MeanOfBounded(SumY(ms), |ms|);
    }
  }

  lemma MeanOfBounded(sum: real, n: nat)
    requires n > 0 && Abs(sum) <= n as real
    ensures Abs(Mean(sum, n)) <= 1.0
  {
    var m := Mean(sum, n);
    assert m * (n as real) == sum;
    if m > 1.0 {
      assert m * (n as real) > 1.0 * (n as real);
    }
  }
}

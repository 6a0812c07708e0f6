/** Braitenberg steering: each wheel runs at full speed minus an inhibition
    from the weighted sensors of the opposite front trio. The right trio
    (0, 1, 2) slows the left wheel and the left trio (7, 6, 5) slows the
    right wheel, so the robot curves away from what it sees. The result is
    scaled by the maximum speed and not clamped. */
module Braitenberg {
  import opened Sensors
  import opened Motion

  /** Inhibition coefficients: `front` for sensors 0 and 7, `diagonal` for
      1 and 6, `side` for 2 and 5 (the `braitenberg_weights` array). */
  datatype Coefficients = Coefficients(front: real, diagonal: real, side: real)

  function Total(k: Coefficients): real {
    k.front + k.diagonal + k.side
  }

  /** The documented tuning rule: every coefficient in [0, 1] and the sum
      below 2 (2 itself is allowed here, as one controller uses it). */
  predicate Tame(k: Coefficients) {
    0.0 <= k.front <= 1.0 && 0.0 <= k.diagonal <= 1.0 && 0.0 <= k.side <= 1.0 && Total(k) <= 2.0
  }

  /** The inhibition `a * front + b * diagonal + c * side` of the weights
      a, b, c of one trio, front-most first. */
  function Inhibition(a: real, b: real, c: real, k: Coefficients): real {
    a * k.front + b * k.diagonal + c * k.side
  }

  /** One wheel: `(1 - inhibition) * maxSpeed` for the opposite trio. */
  function Wheel(a: real, b: real, c: real, k: Coefficients, maxSpeed: real): real {
    (1.0 - Inhibition(a, b, c, k)) * maxSpeed
  }

  function LeftSpeed(w: Frame, k: Coefficients, maxSpeed: real): real {
    Wheel(w[0], w[1], w[2], k, maxSpeed)
  }

  function RightSpeed(w: Frame, k: Coefficients, maxSpeed: real): real {
    Wheel(w[7], w[6], w[5], k, maxSpeed)
  }

  /** `run_braitenberg` as one motor write with no hold; with no weight set
      both wheels run at the maximum speed. */
  function Steer(w: Frame, k: Coefficients, maxSpeed: real): (c: Command)
    ensures c.holdMs == 0
    ensures AllZero(w) ==> c.left == maxSpeed && c.right == maxSpeed
  {
    Command(LeftSpeed(w, k, maxSpeed), RightSpeed(w, k, maxSpeed), 0)
  }

  /** With no weight set both wheels run at the maximum speed. */
  lemma Cruise(w: Frame, k: Coefficients, maxSpeed: real)
    requires AllZero(w)
    ensures Steer(w, k, maxSpeed) == MoveForward(maxSpeed, 0)
  {
  }

  /** The left wheel reads only weights 0, 1, 2 and the right wheel only
      weights 7, 6, 5. */
  lemma WheelsReadOwnTrio(w: Frame, u: Frame, k: Coefficients, maxSpeed: real)
    ensures w[0] == u[0] && w[1] == u[1] && w[2] == u[2] ==> LeftSpeed(w, k, maxSpeed) == LeftSpeed(u, k, maxSpeed)
    ensures w[5] == u[5] && w[6] == u[6] && w[7] == u[7] ==> RightSpeed(w, k, maxSpeed) == RightSpeed(u, k, maxSpeed)
  {
  }

  /** Mirror symmetry: the mirror image of the weights yields the same
      command with the wheels exchanged. */
  lemma MirrorSwapsWheels(w: Frame, k: Coefficients, maxSpeed: real)
    ensures Steer(Mirror(w), k, maxSpeed) == Swapped(Steer(w, k, maxSpeed))
  {
  }

  /** A fully weighted trio takes the whole coefficient sum off its wheel;
      nothing clamps the result, so a sum above 1 reverses the wheel. */
  lemma FullTrio(w: Frame, k: Coefficients, maxSpeed: real)
    ensures w[0] == 1.0 && w[1] == 1.0 && w[2] == 1.0 ==>
      LeftSpeed(w, k, maxSpeed) == (1.0 - Total(k)) * maxSpeed &&
      (Total(k) > 1.0 && maxSpeed > 0.0 ==> LeftSpeed(w, k, maxSpeed) < 0.0)
    ensures w[7] == 1.0 && w[6] == 1.0 && w[5] == 1.0 ==>
      RightSpeed(w, k, maxSpeed) == (1.0 - Total(k)) * maxSpeed &&
      (Total(k) > 1.0 && maxSpeed > 0.0 ==> RightSpeed(w, k, maxSpeed) < 0.0)
  {
    if Total(k) > 1.0 && maxSpeed > 0.0 {
      ProductNegative(1.0 - Total(k), maxSpeed);
    }
  }

  lemma ProductNegative(a: real, b: real)
    requires a < 0.0 && b > 0.0
    ensures a * b < 0.0
  {
  }

  /** The coefficient that weight i carries in its wheel (0 for the rear
      sensors 3 and 4, which no wheel reads). */
  function CoefficientOf(i: Index, k: Coefficients): real {
    if i == 0 || i == 7 then k.front
    else if i == 1 || i == 6 then k.diagonal
    else if i == 2 || i == 5 then k.side
    else 0.0
  }

  /** Setting one more weight lowers the wheel whose trio holds it by the
      coefficient times the maximum speed and leaves the other wheel alone:
      the speed falls as obstacles appear on the opposite side. */
  lemma SetWeightSlowsWheel(w: Frame, i: Index, k: Coefficients, maxSpeed: real)
    requires w[i] == 0.0
    ensures i <= 2 ==> LeftSpeed(w[i := 1.0], k, maxSpeed) == LeftSpeed(w, k, maxSpeed) - CoefficientOf(i, k) * maxSpeed
    ensures i <= 2 ==> RightSpeed(w[i := 1.0], k, maxSpeed) == RightSpeed(w, k, maxSpeed)
    ensures i >= 5 ==> RightSpeed(w[i := 1.0], k, maxSpeed) == RightSpeed(w, k, maxSpeed) - CoefficientOf(i, k) * maxSpeed
    ensures i >= 5 ==> LeftSpeed(w[i := 1.0], k, maxSpeed) == LeftSpeed(w, k, maxSpeed)
    ensures 3 <= i <= 4 ==> Steer(w[i := 1.0], k, maxSpeed) == Steer(w, k, maxSpeed)
  {
  }

  /** Under the documented tuning rule and with 0/1 weights, each wheel stays
      within [-maxSpeed, maxSpeed]. */
  lemma SpeedBounded(w: Frame, k: Coefficients, maxSpeed: real)
    requires IsWeightVector(w) && Tame(k) && maxSpeed >= 0.0
    ensures -maxSpeed <= LeftSpeed(w, k, maxSpeed) <= maxSpeed
    ensures -maxSpeed <= RightSpeed(w, k, maxSpeed) <= maxSpeed
  {
    assert w[0] == 0.0 || w[0] == 1.0;
    assert w[1] == 0.0 || w[1] == 1.0;
    assert w[2] == 0.0 || w[2] == 1.0;
    assert w[5] == 0.0 || w[5] == 1.0;
    assert w[6] == 0.0 || w[6] == 1.0;
    assert w[7] == 0.0 || w[7] == 1.0;
    WheelBounded(w[0], w[1], w[2], k, maxSpeed);
    WheelBounded(w[7], w[6], w[5], k, maxSpeed);
  }

  lemma WheelBounded(a: real, b: real, c: real, k: Coefficients, m: real)
    requires a == 0.0 || a == 1.0
    requires b == 0.0 || b == 1.0
    requires c == 0.0 || c == 1.0
    requires Tame(k) && m >= 0.0
    ensures -m <= Wheel(a, b, c, k, m) <= m
  {
    InhibitionInRange(a, b, c, k);
    var x := 1.0 - Inhibition(a, b, c, k);
    assert -1.0 <= x <= 1.0;
    ScaledUnit(x, m);
    assert Wheel(a, b, c, k, m) == x * m;
    assert -m <= x * m <= m;
  }

  lemma InhibitionInRange(a: real, b: real, c: real, k: Coefficients)
    requires a == 0.0 || a == 1.0
    requires b == 0.0 || b == 1.0
    requires c == 0.0 || c == 1.0
    requires Tame(k)
    ensures 0.0 <= Inhibition(a, b, c, k) <= 2.0
  {
    var f := if a == 0.0 then 0.0 else k.front;
    var d := if b == 0.0 then 0.0 else k.diagonal;
    var s := if c == 0.0 then 0.0 else k.side;
    assert a * k.front == f by { if a == 0.0 { assert a * k.front == 0.0; } else { assert a * k.front == 1.0 * k.front; } }
    assert b * k.diagonal == d by { if b == 0.0 { assert b * k.diagonal == 0.0; } else { assert b * k.diagonal == 1.0 * k.diagonal; } }
    assert c * k.side == s by { if c == 0.0 { assert c * k.side == 0.0; } else { assert c * k.side == 1.0 * k.side; } }
  }

  lemma ScaledUnit(x: real, m: real)
    requires -1.0 <= x <= 1.0 && m >= 0.0
    ensures -m <= x * m <= m
  {
    assert (1.0 - x) * m >= 0.0;
    assert (1.0 + x) * m >= 0.0;
    assert x * m == m - (1.0 - x) * m;
    assert x * m == (1.0 + x) * m - m;
  }
}

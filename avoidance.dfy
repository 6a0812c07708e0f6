/** The decision engine shared by Task1 and the Webots
    custom_braitenberg_controller: stray critical first, then U-block, then
    Braitenberg steering. The two controllers differ only in the constants
    gathered in a `Profile`. */
module Avoidance {
  import opened Motion
  import opened Sensors
  import opened Braitenberg
  import opened Recovery

  /** Presence and critical thresholds, maximum speed, the speed of the
      U-block escape rotation, and the steering coefficients. */
  datatype Profile = Profile(threshold: real, critical: real, maxSpeed: real, escapeSpeed: real,
                             coefficients: Coefficients)

  /** The stray branch of one tick: stop and settle for 500 ms, then rotate
      in place at half speed for 500 ms, away from the flagged trio. */
  function StrayManeuver(side: Stray, p: Profile): seq<Command>
    requires side != NoStray
  {
    var half := p.maxSpeed / 2.0;
    if side == LeftTrio then [Stop(500), TurnRight(half, 500)] else [Stop(500), TurnLeft(half, 500)]
  }

  /** Which stray branch, if any, the readings trigger. */
  function StraySide(v: Frame, p: Profile): Stray {
    CriticalSide(v, Classify(v, p.threshold), p.critical)
  }

  /** The commands of one tick of the main loop, given the tick's readings.
      A stray takes two commands and everything else one; only plain
      steering leaves its command unheld. */
  function Decide(v: Frame, p: Profile): (cmds: seq<Command>)
    ensures 1 <= |cmds| <= 2
    ensures |cmds| == 2 <==> StraySide(v, p) != NoStray
    ensures cmds[|cmds| - 1].holdMs == 0 <==> StraySide(v, p) == NoStray && !UBlock(Classify(v, p.threshold))
  {
    var w := Classify(v, p.threshold);
    var side := CriticalSide(v, w, p.critical);
    if side != NoStray then StrayManeuver(side, p)
    else if UBlock(w) then [TurnLeft(p.escapeSpeed, 500)]
    else [Steer(w, p.coefficients, p.maxSpeed)]
  }

  /** A stray reading preempts everything else: the tick stops, then spins
      away from the flagged trio (clockwise for the left trio 5-7,
      counter-clockwise for the right trio 0-2). */
  lemma StrayPreempts(v: Frame, p: Profile)
    requires StraySide(v, p) != NoStray && p.maxSpeed > 0.0
    ensures var cmds := Decide(v, p);
      |cmds| == 2 && cmds[0] == Stop(500) && cmds[1].holdMs == 500
      && (StraySide(v, p) == LeftTrio ==> SpinsRight(cmds[1]) && cmds[1].left == p.maxSpeed / 2.0)
      && (StraySide(v, p) == RightTrio ==> SpinsLeft(cmds[1]) && cmds[1].right == p.maxSpeed / 2.0)
  {
  }

  /** Without a stray the tick is one command. Under a U-block it is the
      escape: a counter-clockwise spin at the escape speed held for 500 ms.
      Otherwise it is an unheld steering command whose wheels stay within
      the maximum speed when the coefficients follow the tuning rule. */
  lemma UBlockOnlyWithoutStray(v: Frame, p: Profile)
    requires StraySide(v, p) == NoStray
    ensures var w := Classify(v, p.threshold);
      var cmds := Decide(v, p);
      && |cmds| == 1
      && (UBlock(w) ==> cmds[0].holdMs == 500 && cmds[0].right == p.escapeSpeed &&
                        (p.escapeSpeed > 0.0 ==> SpinsLeft(cmds[0])))
      && (!UBlock(w) ==> cmds[0].holdMs == 0 &&
                         (Tame(p.coefficients) && p.maxSpeed >= 0.0 ==>
                            -p.maxSpeed <= cmds[0].left <= p.maxSpeed &&
                            -p.maxSpeed <= cmds[0].right <= p.maxSpeed))
  {
    var w := Classify(v, p.threshold);
    if !UBlock(w) && Tame(p.coefficients) && p.maxSpeed >= 0.0 {
      SpeedBounded(w, p.coefficients, p.maxSpeed);
    }
  }

  /** Nothing above the presence threshold: straight ahead at full speed. */
  lemma CruiseWhenClear(v: Frame, p: Profile)
    requires forall i: Index :: v[i] <= p.threshold
    requires p.threshold <= p.critical
    ensures Decide(v, p) == [MoveForward(p.maxSpeed, 0)]
  {
    var w := Classify(v, p.threshold);
    assert AllZero(w) by {
      forall i: Index ensures w[i] == 0.0 {
        assert !On(w, i);
      }
    }
    Cruise(w, p.coefficients, p.maxSpeed);
  }

  /** When the tick steers and only the right trio sees something, the left
      wheel is the slower one: the robot curves left, away from it. */
  lemma SteersAwayFromRight(v: Frame, p: Profile)
    requires p.coefficients.front > 0.0 && p.coefficients.diagonal > 0.0 && p.coefficients.side > 0.0
    requires p.maxSpeed > 0.0
    requires var w := Classify(v, p.threshold);
      StraySide(v, p) == NoStray && (On(w, 0) || On(w, 1) || On(w, 2)) && !On(w, 5) && !On(w, 6) && !On(w, 7)
    ensures |Decide(v, p)| == 1 && Decide(v, p)[0].left < Decide(v, p)[0].right == p.maxSpeed
  {
    var w := Classify(v, p.threshold);
    var k := p.coefficients;
    assert !UBlock(w);
    var s := w[0] * k.front + w[1] * k.diagonal + w[2] * k.side;
    assert s > 0.0 by {
      assert w[0] == 0.0 || w[0] == 1.0;
      assert w[1] == 0.0 || w[1] == 1.0;
      assert w[2] == 0.0 || w[2] == 1.0;
    }
    assert RightSpeed(w, k, p.maxSpeed) == p.maxSpeed;
    SlowerWheel(s, p.maxSpeed);
  }

  lemma SlowerWheel(s: real, m: real)
    requires s > 0.0 && m > 0.0
    ensures (1.0 - s) * m < m
  {
  }
}

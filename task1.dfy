/** Task1 e-puck2 firmware: obstacle avoidance with the Braitenberg engine,
    stray-critical recovery and a full-speed U-block escape, run only while
    the selector is at its start position. */
module Task1 {
  import opened Motion
  import opened Sensors
  import opened Braitenberg
  import opened Recovery
  import opened Avoidance
  import Leds

  const MaxSpeed: real := 650.0
  const PThreshold: real := 100.0
  const CriticalThreshold: real := 250.0
  const StartSelector: int := 0
  const BraitenbergWeights: Coefficients := Coefficients(0.7, 0.5, 0.3)

  /** The engine constants of this controller; the U-block escape runs at
      the full maximum speed. */
  const Tuning: Profile := Profile(PThreshold, CriticalThreshold, MaxSpeed, MaxSpeed, BraitenbergWeights)

  /** The controller's globals: sensor and weight buffers, the last computed
      wheel speeds, the last ToF reading and the LED states. */
  class Controller {
    var proximityValues: array<real>
    var proximityWeights: array<real>
    var leftSpeed: real
    var rightSpeed: real
    var tofValue: real
    var leds: seq<bool>

    ghost predicate Valid()
      reads this
    {
      proximityValues.Length == 8 && proximityWeights.Length == 8 && proximityValues != proximityWeights
    }

    /** Zero-initialised globals; `init` clears the LEDs. */
    constructor ()
      ensures Valid() && fresh(proximityValues) && fresh(proximityWeights)
      ensures proximityValues[..] == [0.0, 0.0, 0.0, 0.0, 0.0, 0.0, 0.0, 0.0]
      ensures proximityWeights[..] == [0.0, 0.0, 0.0, 0.0, 0.0, 0.0, 0.0, 0.0]
      ensures leftSpeed == 0.0 && rightSpeed == 0.0 && tofValue == 0.0
      ensures leds == [false, false, false, false, false, false, false, false]
    {
      proximityValues := new real[8](_ => 0.0);
      proximityWeights := new real[8](_ => 0.0);
      leftSpeed, rightSpeed, tofValue := 0.0, 0.0, 0.0;
      leds := [false, false, false, false, false, false, false, false];
    }

    /** `fill_sensor_values`: the readings of this tick and the ToF distance. */
    method FillSensorValues(frame: Frame, tof: real)
      requires Valid()
      modifies proximityValues, this`tofValue
      ensures proximityValues[..] == frame && tofValue == tof
    {
      CopyFrame(frame, proximityValues);
      tofValue := tof;
    }

    /** `fill_proximity_weights`: all eight weights overwritten from the
        current readings. */
    method FillProximityWeights()
      requires Valid()
      modifies proximityWeights
      ensures proximityWeights[..] == Classify(proximityValues[..], PThreshold)
    {
      FillWeights(proximityValues, proximityWeights, PThreshold);
    }

    /** `run_braitenberg`: the speed globals get the steering formula over the
        current weights, and the motors are written with them. */
    method RunBraitenberg() returns (cmd: Command)
      requires Valid()
      modifies this`leftSpeed, this`rightSpeed
      ensures leftSpeed == LeftSpeed(proximityWeights[..], BraitenbergWeights, MaxSpeed)
      ensures rightSpeed == RightSpeed(proximityWeights[..], BraitenbergWeights, MaxSpeed)
      ensures cmd == Command(leftSpeed, rightSpeed, 0)
    {
      leftSpeed := 1.0 -
        (proximityWeights[0] * BraitenbergWeights.front +
         proximityWeights[1] * BraitenbergWeights.diagonal +
         proximityWeights[2] * BraitenbergWeights.side);
      rightSpeed := 1.0 -
        (proximityWeights[7] * BraitenbergWeights.front +
         proximityWeights[6] * BraitenbergWeights.diagonal +
         proximityWeights[5] * BraitenbergWeights.side);
      leftSpeed := leftSpeed * MaxSpeed;
      rightSpeed := rightSpeed * MaxSpeed;
      cmd := Command(leftSpeed, rightSpeed, 0);
    }

    /** `stray_criticals`: when a stray fires, stop for 500 ms and rotate
        away for 500 ms, leaving the rotation in the speed globals. */
    method StrayCriticals() returns (fired: bool, cmds: seq<Command>)
      requires Valid()
      modifies this`leftSpeed, this`rightSpeed
      ensures var side := CriticalSide(proximityValues[..], proximityWeights[..], CriticalThreshold);
        && fired == (side != NoStray)
        && (fired ==> cmds == StrayManeuver(side, Tuning) && leftSpeed == cmds[1].left && rightSpeed == cmds[1].right)
        && (!fired ==> cmds == [] && leftSpeed == old(leftSpeed) && rightSpeed == old(rightSpeed))
    {
      var v, w := proximityValues, proximityWeights;
      if (v[5] > CriticalThreshold && w[6] == 0.0 && w[7] == 0.0 && w[0] == 0.0 && w[1] == 0.0 && w[2] == 0.0) ||
         (w[5] == 0.0 && v[6] > CriticalThreshold && w[7] == 0.0 && w[0] == 0.0 && w[1] == 0.0 && w[2] == 0.0) ||
         (w[5] == 0.0 && w[6] == 0.0 && v[7] > CriticalThreshold && w[0] == 0.0 && w[1] == 0.0 && w[2] == 0.0)
      {
        cmds := [Stop(500)];
        leftSpeed := MaxSpeed / 2.0;
        rightSpeed := -MaxSpeed / 2.0;
        cmds := cmds + [Command(leftSpeed, rightSpeed, 500)];
        fired := true;
      } else if (v[0] > CriticalThreshold && w[1] == 0.0 && w[2] == 0.0 && w[5] == 0.0 && w[6] == 0.0 && w[7] == 0.0) ||
                (w[0] == 0.0 && v[1] > CriticalThreshold && w[2] == 0.0 && w[5] == 0.0 && w[6] == 0.0 && w[7] == 0.0) ||
                (w[0] == 0.0 && w[1] == 0.0 && v[2] > CriticalThreshold && w[5] == 0.0 && w[6] == 0.0 && w[7] == 0.0)
      {
        cmds := [Stop(500)];
        leftSpeed := -MaxSpeed / 2.0;
        rightSpeed := MaxSpeed / 2.0;
        cmds := cmds + [Command(leftSpeed, rightSpeed, 500)];
        fired := true;
      } else {
        cmds := [];
        fired := false;
      }
    }

    /** One pass of the main loop. Off the start position the robot only
        stops for 100 ms. Otherwise the LEDs, readings and weights are
        refreshed and the engine decides; a stray tick leaves the loop body
        early, before the weights are zeroed, and every other tick ends with
        all weights at 0. */
    method Tick(selector: int, frame: Frame, tof: real) returns (cmds: seq<Command>)
      requires Valid()
      modifies this`leftSpeed, this`rightSpeed, this`tofValue, this`leds, proximityValues, proximityWeights
      ensures Valid()
      ensures selector != StartSelector ==>
        cmds == [Stop(100)] && unchanged(this, proximityValues, proximityWeights)
      ensures selector == StartSelector ==>
        && cmds == Decide(frame, Tuning)
        && proximityValues[..] == frame && tofValue == tof
        && leds == Leds.Pattern(frame, PThreshold)
        && leftSpeed == cmds[|cmds| - 1].left && rightSpeed == cmds[|cmds| - 1].right
        && (if StraySide(frame, Tuning) != NoStray then proximityWeights[..] == Classify(frame, PThreshold)
            else forall i :: 0 <= i < 8 ==> proximityWeights[i] == 0.0)
    {
      if selector != StartSelector {
        cmds := [Stop(100)];
        return;
      }
      leds := Leds.GlowLeds(frame, PThreshold);
      FillSensorValues(frame, tof);
      FillProximityWeights();
      var fired, strayCmds := StrayCriticals();
      if fired {
        cmds := strayCmds;
        return;
      }
      var w := proximityWeights;
      if (w[5] != 0.0 || w[6] != 0.0) && (w[1] != 0.0 || w[2] != 0.0) && (w[0] != 0.0 || w[7] != 0.0) {
        leftSpeed := -MaxSpeed;
        rightSpeed := MaxSpeed;
        cmds := [Command(leftSpeed, rightSpeed, 500)];
      } else {
        var cmd := RunBraitenberg();
        cmds := [cmd];
      }
      ZeroWeights(proximityWeights);
    }
  }

  /** Stray responses with this controller's constants: stop, then (325, -325)
      for the left trio and (-325, 325) for the right trio. The right-trio
      response spins the robot counter-clockwise (to the left), although the
      source comment over it says "rotate right". */
  lemma StrayResponses(v: Frame)
    ensures StraySide(v, Tuning) == LeftTrio ==>
      Decide(v, Tuning) == [Stop(500), Command(325.0, -325.0, 500)]
    ensures StraySide(v, Tuning) == RightTrio ==>
      Decide(v, Tuning) == [Stop(500), Command(-325.0, 325.0, 500)] && SpinsLeft(Decide(v, Tuning)[1])
  {
  }

  /** With the presence and critical thresholds 100 and 250, the stray rule is
      "exactly one sensor of a trio weighted, reading above 250, opposite trio
      clear", and the two branches never both hold. */
  lemma StrayRule(v: Frame)
    ensures var w := Classify(v, PThreshold);
      && (StraySide(v, Tuning) == LeftTrio <==> LoneCritical(v, w, 5, 6, 7, 250.0) && Clear(w, 0, 1, 2))
      && (StraySide(v, Tuning) == RightTrio <==> LoneCritical(v, w, 0, 1, 2, 250.0) && Clear(w, 5, 6, 7))
  {
    LeftStrayIsLoneCritical(v, PThreshold, CriticalThreshold);
    RightStrayIsLoneCritical(v, PThreshold, CriticalThreshold);
    StraysExclusive(v, PThreshold, CriticalThreshold);
  }

  /** U-block (without a stray): rotate at full speed, (-650, 650), for
      500 ms. */
  lemma UBlockEscape(v: Frame)
    requires StraySide(v, Tuning) == NoStray && UBlock(Classify(v, PThreshold))
    ensures Decide(v, Tuning) == [Command(-650.0, 650.0, 500)]
  {
  }

  /** Steering with these coefficients: full speed when clear, and a fully
      weighted trio drives its wheel backwards at (1 - 1.5) * 650 = -325;
      every steering speed lies in [-325, 650]. */
  lemma SteeringRange(w: Frame)
    requires IsWeightVector(w)
    ensures AllZero(w) ==> Steer(w, BraitenbergWeights, MaxSpeed) == Command(650.0, 650.0, 0)
    ensures w[0] == 1.0 && w[1] == 1.0 && w[2] == 1.0 ==> LeftSpeed(w, BraitenbergWeights, MaxSpeed) == -325.0
    ensures -325.0 <= LeftSpeed(w, BraitenbergWeights, MaxSpeed) <= 650.0
    ensures -325.0 <= RightSpeed(w, BraitenbergWeights, MaxSpeed) <= 650.0
  {
    assert w[0] == 0.0 || w[0] == 1.0;
    assert w[1] == 0.0 || w[1] == 1.0;
    assert w[2] == 0.0 || w[2] == 1.0;
    assert w[5] == 0.0 || w[5] == 1.0;
    assert w[6] == 0.0 || w[6] == 1.0;
    assert w[7] == 0.0 || w[7] == 1.0;
  }

  /** A lone reading of 300 on sensor 5: stop, then spin clockwise, away from
      it. */
  lemma LoneLeftReading()
    ensures Decide([0.0, 0.0, 0.0, 0.0, 0.0, 300.0, 0.0, 0.0], Tuning) == [Stop(500), TurnRight(325.0, 500)]
  {
    var v: Frame := [0.0, 0.0, 0.0, 0.0, 0.0, 300.0, 0.0, 0.0];
    assert LeftStray(v, Classify(v, PThreshold), CriticalThreshold);
  }

  /** Readings of 200 on sensors 0, 1, 5 and 6: no stray (two sensors per
      trio), a U-block. */
  lemma SurroundedReading()
    ensures Decide([200.0, 200.0, 0.0, 0.0, 0.0, 200.0, 200.0, 0.0], Tuning) == [TurnLeft(650.0, 500)]
  {
    var v: Frame := [200.0, 200.0, 0.0, 0.0, 0.0, 200.0, 200.0, 0.0];
    var w := Classify(v, PThreshold);
    assert On(w, 0) && On(w, 1) && On(w, 5) && On(w, 6);
    WallIsNotStray(v, w, CriticalThreshold, 5, 6);
  }
}

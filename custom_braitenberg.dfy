/** Webots custom_braitenberg_controller: Task1's engine with presence
    threshold 75, critical threshold 150, maximum speed 6.27 / 2 and a
    U-block escape at half that speed; no selector and no LEDs. */
module CustomBraitenberg {
  import opened Motion
  import opened Sensors
  import opened Braitenberg
  import opened Recovery
  import opened Avoidance

  const MaxSpeed: real := 6.27 / 2.0
  const Threshold: real := 75.0
  const CriticalThreshold: real := 150.0
  const BraitenbergWeights: Coefficients := Coefficients(0.7, 0.5, 0.3)
  const Tuning: Profile := Profile(Threshold, CriticalThreshold, MaxSpeed, MaxSpeed / 2.0, BraitenbergWeights)

  class Controller {
    var proximityValues: array<real>
    var proximityWeights: array<real>
    var leftSpeed: real
    var rightSpeed: real

    ghost predicate Valid()
      reads this
    {
      proximityValues.Length == 8 && proximityWeights.Length == 8 && proximityValues != proximityWeights
    }

    constructor ()
      ensures Valid() && fresh(proximityValues) && fresh(proximityWeights)
      ensures proximityValues[..] == [0.0, 0.0, 0.0, 0.0, 0.0, 0.0, 0.0, 0.0]
      ensures proximityWeights[..] == [0.0, 0.0, 0.0, 0.0, 0.0, 0.0, 0.0, 0.0]
      ensures leftSpeed == 0.0 && rightSpeed == 0.0
    {
      proximityValues := new real[8](_ => 0.0);
      proximityWeights := new real[8](_ => 0.0);
      leftSpeed, rightSpeed := 0.0, 0.0;
    }

    /** `fill_sensor_values`. */
    method FillSensorValues(frame: Frame)
      requires Valid()
      modifies proximityValues
      ensures proximityValues[..] == frame
    {
      CopyFrame(frame, proximityValues);
    }

    /** `fill_proximity_weights` with the strict test "> 75" on all eight
        sensors. */
    method FillProximityWeights()
      requires Valid()
      modifies proximityWeights
      ensures proximityWeights[..] == Classify(proximityValues[..], Threshold)
    {
      FillWeights(proximityValues, proximityWeights, Threshold);
    }

    /** `run_braitenberg`. */
    method RunBraitenberg() returns (cmd: Command)
      requires Valid()
      modifies this`leftSpeed, this`rightSpeed
      ensures leftSpeed == LeftSpeed(proximityWeights[..], BraitenbergWeights, MaxSpeed)
      ensures rightSpeed == RightSpeed(proximityWeights[..], BraitenbergWeights, MaxSpeed)
      ensures cmd == Command(leftSpeed, rightSpeed, 0)
    {
      leftSpeed := 1.0 -
        (proximityWeights[0] * BraitenbergWeights.front +
         proximityWeights[1] * BraitenbergWeights.diagonal +
         proximityWeights[2] * BraitenbergWeights.side);
      rightSpeed := 1.0 -
        (proximityWeights[7] * BraitenbergWeights.front +
         proximityWeights[6] * BraitenbergWeights.diagonal +
         proximityWeights[5] * BraitenbergWeights.side);
      leftSpeed := leftSpeed * MaxSpeed;
      rightSpeed := rightSpeed * MaxSpeed;
      cmd := Command(leftSpeed, rightSpeed, 0);
    }

    /** `stray_criticals`: the speed globals are set to the rotation first,
        then the robot stops for 0.5 s and rotates for 0.5 s. */
    method StrayCriticals() returns (fired: bool, cmds: seq<Command>)
      requires Valid()
      modifies this`leftSpeed, this`rightSpeed
      ensures var side := CriticalSide(proximityValues[..], proximityWeights[..], CriticalThreshold);
        && fired == (side != NoStray)
        && (fired ==> cmds == StrayManeuver(side, Tuning) && leftSpeed == cmds[1].left && rightSpeed == cmds[1].right)
        && (!fired ==> cmds == [] && leftSpeed == old(leftSpeed) && rightSpeed == old(rightSpeed))
    {
      var v, w := proximityValues, proximityWeights;
      if (v[5] > CriticalThreshold && w[6] == 0.0 && w[7] == 0.0 && w[0] == 0.0 && w[1] == 0.0 && w[2] == 0.0) ||
         (w[5] == 0.0 && v[6] > CriticalThreshold && w[7] == 0.0 && w[0] == 0.0 && w[1] == 0.0 && w[2] == 0.0) ||
         (w[5] == 0.0 && w[6] == 0.0 && v[7] > CriticalThreshold && w[0] == 0.0 && w[1] == 0.0 && w[2] == 0.0)
      {
        leftSpeed := MaxSpeed / 2.0;
        rightSpeed := -MaxSpeed / 2.0;
        cmds := [Stop(500), Command(leftSpeed, rightSpeed, 500)];
        fired := true;
      } else if (v[0] > CriticalThreshold && w[1] == 0.0 && w[2] == 0.0 && w[5] == 0.0 && w[6] == 0.0 && w[7] == 0.0) ||
                (w[0] == 0.0 && v[1] > CriticalThreshold && w[2] == 0.0 && w[5] == 0.0 && w[6] == 0.0 && w[7] == 0.0) ||
                (w[0] == 0.0 && w[1] == 0.0 && v[2] > CriticalThreshold && w[5] == 0.0 && w[6] == 0.0 && w[7] == 0.0)
      {
        leftSpeed := -MaxSpeed / 2.0;
        rightSpeed := MaxSpeed / 2.0;
        cmds := [Stop(500), Command(leftSpeed, rightSpeed, 500)];
        fired := true;
      } else {
        cmds := [];
        fired := false;
      }
    }

    /** One pass of the main loop body: read, weigh, then stray, U-block at
        half speed, or steering; every tick that does not take the stray
        branch ends with all weights zeroed. */
    method Tick(frame: Frame) returns (cmds: seq<Command>)
      requires Valid()
      modifies this`leftSpeed, this`rightSpeed, proximityValues, proximityWeights
      ensures Valid()
      ensures cmds == Decide(frame, Tuning)
      ensures proximityValues[..] == frame
      ensures leftSpeed == cmds[|cmds| - 1].left && rightSpeed == cmds[|cmds| - 1].right
      ensures if StraySide(frame, Tuning) != NoStray then proximityWeights[..] == Classify(frame, Threshold)
              else forall i :: 0 <= i < 8 ==> proximityWeights[i] == 0.0
    {
      FillSensorValues(frame);
      FillProximityWeights();
      var fired, strayCmds := StrayCriticals();
      if fired {
        cmds := strayCmds;
        return;
      }
      var w := proximityWeights;
      if (w[5] != 0.0 || w[6] != 0.0) && (w[1] != 0.0 || w[2] != 0.0) && (w[0] != 0.0 || w[7] != 0.0) {
        leftSpeed := -MaxSpeed / 2.0;
        rightSpeed := MaxSpeed / 2.0;
        cmds := [Command(leftSpeed, rightSpeed, 500)];
      } else {
        var cmd := RunBraitenberg();
        cmds := [cmd];
      }
      ZeroWeights(proximityWeights);
    }
  }

  /** Stray rule with thresholds 75 and 150: exactly one sensor of a trio
      weighted, reading above 150, opposite trio clear; left trio first,
      and the two never both hold. The response is stop, then a half-speed
      spin away from the trio. */
  lemma StrayRule(v: Frame)
    ensures var w := Classify(v, Threshold);
      && (StraySide(v, Tuning) == LeftTrio <==> LoneCritical(v, w, 5, 6, 7, 150.0) && Clear(w, 0, 1, 2))
      && (StraySide(v, Tuning) == RightTrio <==> LoneCritical(v, w, 0, 1, 2, 150.0) && Clear(w, 5, 6, 7))
    ensures StraySide(v, Tuning) == LeftTrio ==>
      Decide(v, Tuning) == [Stop(500), TurnRight(6.27 / 4.0, 500)]
    ensures StraySide(v, Tuning) == RightTrio ==>
      Decide(v, Tuning) == [Stop(500), TurnLeft(6.27 / 4.0, 500)]
  {
    LeftStrayIsLoneCritical(v, Threshold, CriticalThreshold);
    RightStrayIsLoneCritical(v, Threshold, CriticalThreshold);
    StraysExclusive(v, Threshold, CriticalThreshold);
  }

  /** The U-block escape here spins at half the maximum speed, half the
      magnitude of Task1's escape relative to its own maximum. */
  lemma UBlockEscape(v: Frame)
    requires StraySide(v, Tuning) == NoStray && UBlock(Classify(v, Threshold))
    ensures Decide(v, Tuning) == [Command(-6.27 / 4.0, 6.27 / 4.0, 500)]
    ensures Decide(v, Tuning)[0].right == MaxSpeed / 2.0
  {
  }

  /** No weight set: both wheels at 6.27 / 2; each steering speed falls as
      weights of its controlling trio are set. */
  lemma CruiseAndSlowdown(v: Frame, i: Index)
    requires forall j: Index :: v[j] <= Threshold
    ensures Decide(v, Tuning) == [MoveForward(6.27 / 2.0, 0)]
    ensures var w := Classify(v, Threshold);
      i <= 2 ==> LeftSpeed(w[i := 1.0], BraitenbergWeights, MaxSpeed) < MaxSpeed
    ensures var w := Classify(v, Threshold);
      i >= 5 ==> RightSpeed(w[i := 1.0], BraitenbergWeights, MaxSpeed) < MaxSpeed
  {
    CruiseWhenClear(v, Tuning);
    var w := Classify(v, Threshold);
    if i <= 2 || i >= 5 {
      assert !On(w, i);
      SetWeightSlowsWheel(w, i, BraitenbergWeights, MaxSpeed);
      assert AllZero(w) by {
        forall j: Index ensures w[j] == 0.0 {
          assert !On(w, j);
        }
      }
    }
  }
}

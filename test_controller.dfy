/** The Webots test_controller: Braitenberg steering with its own gains,
    except when both diagonal sensors 1 and 6 detect something, where it
    spins in place, slowly towards a rear sighting or at full speed
    otherwise. */
module TestController {
  import opened Motion
  import opened Sensors
  import opened Braitenberg

  /** `MAX_SPEED` expands to `6.27/2`; every use of it in this controller
      groups the same way as the parenthesised value. */
  const MaxSpeed: real := 6.27 / 2.0
  const Threshold: real := 90.0

  /** `proximityWeights`: the gains of sensors 0/7, 1/6 and 2/5. */
  const Gains: Coefficients := Coefficients(0.8, 0.6, 0.6)

  /** One step's motor speeds. Both diagonals weighted: a slow clockwise
      spin when sensor 3 is weighted, else a slow counter-clockwise spin when
      sensor 4 is, else a full-speed counter-clockwise spin. Otherwise the
      Braitenberg formula with these gains. */
  function Decide(v: Frame): (c: Command)
    ensures c.holdMs == 0
    ensures v[1] > Threshold && v[6] > Threshold ==> c.left == -c.right && c.left != 0.0
  {
    var w := Classify(v, Threshold);
    if On(w, 1) && On(w, 6) then
      if On(w, 3) then Command(MaxSpeed / 10.0, -MaxSpeed / 10.0, 0)
      else if On(w, 4) then Command(-MaxSpeed / 10.0, MaxSpeed / 10.0, 0)
      else Command(-MaxSpeed, MaxSpeed, 0)
    else Steer(w, Gains, MaxSpeed)
  }

  /** The controller's globals: sensor readings, per-step detection counts
      and the wheel speeds. */
  class Controller {
    var sensorValues: array<real>
    var sensorWeight: array<real>
    var leftSpeed: real
    var rightSpeed: real

    ghost predicate Valid()
      reads this
    {
      sensorValues.Length == 8 && sensorWeight.Length == 8 && sensorValues != sensorWeight
    }

    /** Between steps every detection count is back at 0. */
    ghost predicate Rested()
      reads this, sensorWeight
      requires Valid()
    {
      forall i :: 0 <= i < 8 ==> sensorWeight[i] == 0.0
    }

    /** The initialised globals. */
    constructor ()
      ensures Valid() && Rested() && fresh(sensorValues) && fresh(sensorWeight)
      ensures sensorValues[..] == [0.0, 0.0, 0.0, 0.0, 0.0, 0.0, 0.0, 0.0]
      ensures leftSpeed == 0.0 && rightSpeed == 0.0
    {
      sensorValues := new real[8](_ => 0.0);
      sensorWeight := new real[8](_ => 0.0);
      leftSpeed, rightSpeed := 0.0, 0.0;
    }

    /** `get_sensor_values`: the eight readings of this step. */
    method GetSensorValues(frame: Frame)
      requires Valid()
      modifies sensorValues
      ensures sensorValues[..] == frame
    {
      CopyFrame(frame, sensorValues);
    }

    /** `findLargestGapCenter`: the count of every sensor reading above the
        threshold goes up by one; the others are kept. */
    method FindLargestGapCenter()
      requires Valid()
      modifies sensorWeight
      ensures forall i :: 0 <= i < 8 ==>
        sensorWeight[i] == old(sensorWeight[i]) + (if sensorValues[i] > Threshold then 1.0 else 0.0)
    {
      for i := 0 to 8
        invariant forall k :: 0 <= k < i ==>
          sensorWeight[k] == old(sensorWeight[k]) + (if sensorValues[k] > Threshold then 1.0 else 0.0)
        invariant forall k :: i <= k < 8 ==> sensorWeight[k] == old(sensorWeight[k])
      {
        if sensorValues[i] > Threshold {
          sensorWeight[i] := sensorWeight[i] + 1.0;
        }
      }
    }

    /** One simulation step. The counts start at 0, so after the increment
        they are the 0/1 classification of the readings; the speeds follow
        the two-diagonal rule or the Braitenberg formula (the initial
        0.8 * MAX_SPEED is always overwritten), the counts go back to 0 and
        one command is written. */
    method Tick(frame: Frame) returns (cmd: Command)
      requires Valid() && Rested()
      modifies this`leftSpeed, this`rightSpeed, sensorValues, sensorWeight
      ensures Valid() && Rested()
      ensures cmd == Decide(frame) && sensorValues[..] == frame
      ensures leftSpeed == cmd.left && rightSpeed == cmd.right
    {
      leftSpeed := 0.8 * MaxSpeed;
      rightSpeed := 0.8 * MaxSpeed;
      GetSensorValues(frame);
      FindLargestGapCenter();
      assert sensorWeight[..] == Classify(frame, Threshold) by {
        assert forall i :: 0 <= i < 8 ==> sensorWeight[..][i] == Classify(frame, Threshold)[i];
      }
      var w := sensorWeight;
      if w[1] > 0.0 && w[6] > 0.0 {
        if w[3] > 0.0 {
          leftSpeed := MaxSpeed / 10.0;
          rightSpeed := -MaxSpeed / 10.0;
        } else if w[4] > 0.0 {
          leftSpeed := -MaxSpeed / 10.0;
          rightSpeed := MaxSpeed / 10.0;
        } else {
          leftSpeed := -MaxSpeed;
          rightSpeed := MaxSpeed;
        }
      } else {
        leftSpeed := 1.0 - (Gains.front * w[0] + Gains.diagonal * w[1] + Gains.side * w[2]);
        rightSpeed := 1.0 - (Gains.front * w[7] + Gains.diagonal * w[6] + Gains.side * w[5]);
        leftSpeed := leftSpeed * MaxSpeed;
        rightSpeed := rightSpeed * MaxSpeed;
      }
      ZeroWeights(sensorWeight);
      cmd := Command(leftSpeed, rightSpeed, 0);
    }
  }

  /** Both diagonals weighted: always a spin in place, at a tenth of the
      maximum speed when something is behind (sensor 3 wins over sensor 4),
      else at full speed to the left. */
  lemma DiagonalsSpin(v: Frame)
    requires On(Classify(v, Threshold), 1) && On(Classify(v, Threshold), 6)
    ensures v[3] > Threshold ==> Decide(v) == TurnRight(MaxSpeed / 10.0, 0)
    ensures v[3] <= Threshold && v[4] > Threshold ==> Decide(v) == TurnLeft(MaxSpeed / 10.0, 0)
    ensures v[3] <= Threshold && v[4] <= Threshold ==> Decide(v) == TurnLeft(MaxSpeed, 0)
  {
  }

  /** Every wheel speed of this controller lies within [-MAX_SPEED,
      MAX_SPEED]: the gains sum to 2, so a fully weighted trio drives its
      wheel at exactly -MAX_SPEED. */
  lemma SpeedsWithinMax(v: Frame)
    ensures -MaxSpeed <= Decide(v).left <= MaxSpeed
    ensures -MaxSpeed <= Decide(v).right <= MaxSpeed
  {
    var w := Classify(v, Threshold);
    if !(On(w, 1) && On(w, 6)) {
      SpeedBounded(w, Gains, MaxSpeed);
    }
  }

  /** Nothing above the threshold: full speed ahead; a fully weighted right
      trio (0, 1, 2) without sensor 6 drives the left wheel at -MAX_SPEED. */
  lemma ClearAndBlocked(v: Frame)
    ensures (forall i: Index :: v[i] <= Threshold) ==> Decide(v) == MoveForward(MaxSpeed, 0)
    ensures v[0] > Threshold && v[1] > Threshold && v[2] > Threshold && v[6] <= Threshold ==>
      Decide(v).left == -MaxSpeed
  {
    var w := Classify(v, Threshold);
    if forall i: Index :: v[i] <= Threshold {
      assert AllZero(w);
      Cruise(w, Gains, MaxSpeed);
    }
    if v[0] > Threshold && v[1] > Threshold && v[2] > Threshold && v[6] <= Threshold {
      FullTrio(w, Gains, MaxSpeed);
    }
  }
}

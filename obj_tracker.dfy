/** The Webots obj_tracker controller: the target-tracking ladder of the
    Task2 firmware with a 300 mm ToF threshold, a simulated speed scale and
    no selector. */
module ObjTracker {
  import opened Motion
  import opened Sensors
  import opened Tracker

  /** `MAX_SPEED` expands to `6.27/2`, so `MAX_SPEED/2` is 6.27 / 4. */
  const MaxSpeed: real := 6.27 / 2.0
  const PThreshold: real := 100.0
  const TThreshold: real := 300.0
  const BackwardThreshold: real := 250.0
  const ForwardThreshold: real := 150.0

  /** The ladder constants of this controller. */
  const Tuning: Tracker.Profile := Tracker.Profile(PThreshold, TThreshold, BackwardThreshold, ForwardThreshold, MaxSpeed)

  /** The controller's globals: sensor and weight buffers, the ToF reading
      and the two direction counters. */
  class Controller {
    var proximityValues: array<real>
    var proximityWeights: array<real>
    var tofValue: real
    var leftDirCounter: int
    var rightDirCounter: int

    ghost predicate Valid()
      reads this
    {
      proximityValues.Length == 8 && proximityWeights.Length == 8 && proximityValues != proximityWeights
    }

    /** The direction memory held in the two counters. */
    function DirMemory(): Memory
      reads this
    {
      Memory(leftDirCounter, rightDirCounter)
    }

    /** Zero-initialised globals. */
    constructor ()
      ensures Valid() && fresh(proximityValues) && fresh(proximityWeights)
      ensures proximityValues[..] == [0.0, 0.0, 0.0, 0.0, 0.0, 0.0, 0.0, 0.0]
      ensures proximityWeights[..] == [0.0, 0.0, 0.0, 0.0, 0.0, 0.0, 0.0, 0.0]
      ensures tofValue == 0.0 && DirMemory() == Memory(0, 0)
    {
      proximityValues := new real[8](_ => 0.0);
      proximityWeights := new real[8](_ => 0.0);
      tofValue, leftDirCounter, rightDirCounter := 0.0, 0, 0;
    }

    /** `get_sensor_values`: the eight readings of this step and the ToF
        distance. */
    method GetSensorValues(frame: Frame, tof: real)
      requires Valid()
      modifies proximityValues, this`tofValue
      ensures proximityValues[..] == frame && tofValue == tof
    {
      CopyFrame(frame, proximityValues);
      tofValue := tof;
    }

    /** `fill_proximity_weights`: all eight weights overwritten from the
        current readings. */
    method FillProximityWeights()
      requires Valid()
      modifies proximityWeights
      ensures proximityWeights[..] == Classify(proximityValues[..], PThreshold)
    {
      FillWeights(proximityValues, proximityWeights, PThreshold);
    }

    /** `get_last_sensor_input_direction`: both counters reset, then the left
        one counts a weight on 4-7 and the right one anything else. */
    method GetLastSensorInputDirection()
      requires Valid()
      modifies this`leftDirCounter, this`rightDirCounter
      ensures DirMemory() == LastDirection(proximityWeights[..])
    {
      leftDirCounter := 0;
      rightDirCounter := 0;
      var w := proximityWeights;
      if w[4] != 0.0 || w[5] != 0.0 || w[6] != 0.0 || w[7] != 0.0 {
        leftDirCounter := leftDirCounter + 1;
      } else {
        rightDirCounter := rightDirCounter + 1;
      }
    }

    /** One simulation step: readings and weights refreshed, one command from
        the ladder, weights back to 0. The "reached" rung uses the corrected
        grouping of its condition (Tracker.TargetReached). */
    method Tick(frame: Frame, tof: real) returns (cmd: Command)
      requires Valid()
      modifies this`tofValue, this`leftDirCounter, this`rightDirCounter, proximityValues, proximityWeights
      ensures Valid()
      ensures var out := Step(frame, tof, old(DirMemory()), Tuning);
        && cmd == out.command && DirMemory() == out.memory
        && proximityValues[..] == frame && tofValue == tof
        && forall i :: 0 <= i < 8 ==> proximityWeights[i] == 0.0
    {
      GetSensorValues(frame, tof);
      FillProximityWeights();
      var v, w := proximityValues, proximityWeights;
      var half := MaxSpeed / 2.0;
      if v[0] > BackwardThreshold || v[7] > BackwardThreshold || v[1] > BackwardThreshold || v[6] > BackwardThreshold {
        GetLastSensorInputDirection();
        cmd := MoveBackward(half, 0);
      } else if tofValue > TThreshold && !(w[5] != 0.0 || w[6] != 0.0 || w[7] != 0.0 || w[0] != 0.0 || w[1] != 0.0 || w[2] != 0.0) {
        if leftDirCounter > rightDirCounter {
          cmd := TurnLeft(half, 0);
        } else {
          cmd := TurnRight(half, 0);
        }
      } else if (v[0] > ForwardThreshold || v[7] > ForwardThreshold) && tofValue < TThreshold {
        GetLastSensorInputDirection();
        cmd := Stop(0);
      } else if w[5] != 0.0 || w[6] != 0.0 {
        GetLastSensorInputDirection();
        cmd := TurnLeft(half, 0);
      } else if w[1] != 0.0 || w[2] != 0.0 {
        GetLastSensorInputDirection();
        cmd := TurnRight(half, 0);
      } else if w[7] != 0.0 && w[0] == 0.0 && tofValue > TThreshold {
        GetLastSensorInputDirection();
        cmd := TurnLeft(half, 0);
      } else if w[0] != 0.0 && w[7] == 0.0 && tofValue > TThreshold {
        GetLastSensorInputDirection();
        cmd := TurnRight(half, 0);
      } else {
        GetLastSensorInputDirection();
        cmd := MoveForward(half, 0);
      }
      ZeroWeights(proximityWeights);
    }
  }

  /** The grouping as written stops the robot on a sensor-0 reading of 200
      with the ToF at 350 mm, beyond its 300 mm threshold; the corrected test
      nudges it right towards the sighting. */
  lemma ReachedPrecedenceCounterexample()
    ensures var v: Frame := [200.0, 0.0, 0.0, 0.0, 0.0, 0.0, 0.0, 0.0];
      && ReachedAsWritten(v, 350.0, Tuning)
      && !TargetReached(v, 350.0, Tuning)
      && Select(v, 350.0, Tuning) == NudgeRight
      && Step(v, 350.0, Memory(0, 0), Tuning).command == TurnRight(6.27 / 4.0, 0)
      && SelectAsWritten(v, 350.0, Tuning) == Reached
      && StepAsWritten(v, 350.0, Memory(0, 0), Tuning).command == Stop(0)
  {
    var v: Frame := [200.0, 0.0, 0.0, 0.0, 0.0, 0.0, 0.0, 0.0];
    var w := Classify(v, PThreshold);
    assert On(w, 0) && !On(w, 7) && !On(w, 1) && !On(w, 2) && !On(w, 5) && !On(w, 6);
  }

  /** A target straight ahead (200 on both front sensors). As written,
      sensor 0 alone satisfies the reached test, so the robot stops at any
      ToF reading. With the corrected test it stops only once the ToF reads
      under 300 mm; farther away both front weights are set, neither nudge
      applies, and it drives forward. In every case sensor 7 makes the
      memory remember the left side. */
  lemma FrontTargetApproach(tof: real)
    ensures var v: Frame := [200.0, 0.0, 0.0, 0.0, 0.0, 0.0, 0.0, 200.0];
      && StepAsWritten(v, tof, Memory(0, 0), Tuning).command == Stop(0)
      && (tof < 300.0 ==> Step(v, tof, Memory(0, 0), Tuning).command == Stop(0))
      && (tof >= 300.0 ==> Step(v, tof, Memory(0, 0), Tuning).command == MoveForward(6.27 / 4.0, 0))
      && StepAsWritten(v, tof, Memory(0, 0), Tuning).memory == Memory(1, 0)
      && Step(v, tof, Memory(0, 0), Tuning).memory == Memory(1, 0)
  {
    var v: Frame := [200.0, 0.0, 0.0, 0.0, 0.0, 0.0, 0.0, 200.0];
    var w := Classify(v, PThreshold);
    assert On(w, 0) && On(w, 7) && !On(w, 1) && !On(w, 2) && !On(w, 5) && !On(w, 6);
  }
}

/** Task2 e-puck2 firmware: target tracking with the proximity ring and the
    time-of-flight sensor, run only while the selector is at its start
    position. */
module Task2 {
  import opened Motion
  import opened Sensors
  import opened Tracker
  import Leds

  const MaxSpeed: real := 750.0
  const PThreshold: real := 100.0
  const TThreshold: real := 150.0
  const BackwardThreshold: real := 250.0
  const ForwardThreshold: real := 150.0
  const StartSelector: int := 0

  /** `VL53L0X_get_dist_mm` returns an unsigned 16-bit distance in mm. */
  type UInt16 = x: int | 0 <= x < 0x1_0000

  /** The ladder constants of this firmware. */
  const Tuning: Tracker.Profile := Tracker.Profile(PThreshold, TThreshold, BackwardThreshold, ForwardThreshold, MaxSpeed)

  /** The firmware's globals: sensor and weight buffers, the ToF reading,
      the two direction counters and the LED states. */
  class Controller {
    var proximityValues: array<real>
    var proximityWeights: array<real>
    var tofValue: UInt16
    var leftDirCounter: int
    var rightDirCounter: int
    var leds: seq<bool>

    ghost predicate Valid()
      reads this
    {
      proximityValues.Length == 8 && proximityWeights.Length == 8 && proximityValues != proximityWeights
    }

    /** The direction memory held in the two counters. */
    function DirMemory(): Memory
      reads this
    {
      Memory(leftDirCounter, rightDirCounter)
    }

    /** Zero-initialised globals; `init` clears the LEDs. */
    constructor ()
      ensures Valid() && fresh(proximityValues) && fresh(proximityWeights)
      ensures proximityValues[..] == [0.0, 0.0, 0.0, 0.0, 0.0, 0.0, 0.0, 0.0]
      ensures proximityWeights[..] == [0.0, 0.0, 0.0, 0.0, 0.0, 0.0, 0.0, 0.0]
      ensures tofValue == 0 && DirMemory() == Memory(0, 0)
      ensures leds == [false, false, false, false, false, false, false, false]
    {
      proximityValues := new real[8](_ => 0.0);
      proximityWeights := new real[8](_ => 0.0);
      tofValue, leftDirCounter, rightDirCounter := 0, 0, 0;
      leds := [false, false, false, false, false, false, false, false];
    }

    /** `fill_sensor_values`: the readings of this tick and the ToF distance. */
    method FillSensorValues(frame: Frame, tof: UInt16)
      requires Valid()
      modifies proximityValues, this`tofValue
      ensures proximityValues[..] == frame && tofValue == tof
    {
      CopyFrame(frame, proximityValues);
      tofValue := tof;
    }

    /** `fill_proximity_weights`: all eight weights overwritten from the
        current readings. */
    method FillProximityWeights()
      requires Valid()
      modifies proximityWeights
      ensures proximityWeights[..] == Classify(proximityValues[..], PThreshold)
    {
      FillWeights(proximityValues, proximityWeights, PThreshold);
    }

    /** `get_last_sensor_input_direction`: both counters reset, then the left
        one counts a weight on 4-7 and the right one anything else. */
    method GetLastSensorInputDirection()
      requires Valid()
      modifies this`leftDirCounter, this`rightDirCounter
      ensures DirMemory() == LastDirection(proximityWeights[..])
    {
      leftDirCounter := 0;
      rightDirCounter := 0;
      var w := proximityWeights;
      if w[4] != 0.0 || w[5] != 0.0 || w[6] != 0.0 || w[7] != 0.0 {
        leftDirCounter := leftDirCounter + 1;
      } else {
        rightDirCounter := rightDirCounter + 1;
      }
    }

    /** The decision ladder of the main loop over the current readings and
        weights: one command, and the direction memory it leaves. The
        "reached" rung uses the corrected grouping of its condition
        (Tracker.TargetReached; the grouping as written is
        Tracker.ReachedAsWritten). */
    method RunLadder() returns (cmd: Command)
      requires Valid()
      requires proximityWeights[..] == Classify(proximityValues[..], PThreshold)
      modifies this`leftDirCounter, this`rightDirCounter
      ensures var out := Step(proximityValues[..], tofValue as real, old(DirMemory()), Tuning);
        cmd == out.command && DirMemory() == out.memory
    {
      var v, w := proximityValues, proximityWeights;
      var half := MaxSpeed / 2.0;
      var tofMm := tofValue as real;
      if v[0] > BackwardThreshold || v[7] > BackwardThreshold || v[1] > BackwardThreshold || v[6] > BackwardThreshold {
        GetLastSensorInputDirection();
        cmd := MoveBackward(half, 0);
      } else if tofMm > TThreshold && !(w[5] != 0.0 || w[6] != 0.0 || w[7] != 0.0 || w[0] != 0.0 || w[1] != 0.0 || w[2] != 0.0) {
        if leftDirCounter > rightDirCounter {
          cmd := TurnLeft(half, 0);
        } else {
          cmd := TurnRight(half, 0);
        }
      } else if (v[0] > ForwardThreshold || v[7] > ForwardThreshold) && tofMm < TThreshold {
        GetLastSensorInputDirection();
        cmd := Stop(0);
      } else if w[5] != 0.0 || w[6] != 0.0 {
        GetLastSensorInputDirection();
        cmd := TurnLeft(half, 0);
      } else if w[1] != 0.0 || w[2] != 0.0 {
        GetLastSensorInputDirection();
        cmd := TurnRight(half, 0);
      } else if w[7] != 0.0 && w[0] == 0.0 && tofMm > TThreshold {
        GetLastSensorInputDirection();
        cmd := TurnLeft(half, 0);
      } else if w[0] != 0.0 && w[7] == 0.0 && tofMm > TThreshold {
        GetLastSensorInputDirection();
        cmd := TurnRight(half, 0);
      } else {
        GetLastSensorInputDirection();
        cmd := MoveForward(half, 0);
      }
    }

    /** One pass of the main loop. Off the start position the robot only
        stops for 100 ms. Otherwise the LEDs, readings and weights are
        refreshed, the ladder picks one command, and the weights end at 0. */
    method Tick(selector: int, frame: Frame, tof: UInt16) returns (cmds: seq<Command>)
      requires Valid()
      modifies this`tofValue, this`leftDirCounter, this`rightDirCounter, this`leds, proximityValues, proximityWeights
      ensures Valid()
      ensures selector != StartSelector ==>
        cmds == [Stop(100)] && unchanged(this, proximityValues, proximityWeights)
      ensures selector == StartSelector ==>
        var out := Step(frame, tof as real, old(DirMemory()), Tuning);
        && cmds == [out.command] && DirMemory() == out.memory
        && proximityValues[..] == frame && tofValue == tof
        && leds == Leds.Pattern(frame, PThreshold)
        && forall i :: 0 <= i < 8 ==> proximityWeights[i] == 0.0
    {
      if selector != StartSelector {
        cmds := [Stop(100)];
        return;
      }
      leds := Leds.GlowLeds(frame, PThreshold);
      FillSensorValues(frame, tof);
      FillProximityWeights();
      var cmd := RunLadder();
      cmds := [cmd];
      ZeroWeights(proximityWeights);
    }
  }

  /** The grouping as written stops the robot on a close sensor-0 reading
      with the ToF reporting nothing near (200 mm against the 150 mm
      threshold); the corrected test nudges it right towards the sighting. */
  lemma ReachedPrecedenceCounterexample()
    ensures var v: Frame := [200.0, 0.0, 0.0, 0.0, 0.0, 0.0, 0.0, 0.0];
      && ReachedAsWritten(v, 200.0, Tuning)
      && !TargetReached(v, 200.0, Tuning)
      && Select(v, 200.0, Tuning) == NudgeRight
      && Step(v, 200.0, Memory(0, 0), Tuning).command == TurnRight(375.0, 0)
      && SelectAsWritten(v, 200.0, Tuning) == Reached
      && StepAsWritten(v, 200.0, Memory(0, 0), Tuning).command == Stop(0)
  {
    var v: Frame := [200.0, 0.0, 0.0, 0.0, 0.0, 0.0, 0.0, 0.0];
    var w := Classify(v, PThreshold);
    assert On(w, 0) && !On(w, 7) && !On(w, 1) && !On(w, 2) && !On(w, 5) && !On(w, 6);
  }

  /** This firmware's speeds: every command is a stop or a 375 move or spin,
      and a lost target is first searched for clockwise. */
  lemma TrackerSpeeds(v: Frame, tof: UInt16, mem: Memory)
    ensures Step(v, tof as real, mem, Tuning).command in
      {Stop(0), MoveForward(375.0, 0), MoveBackward(375.0, 0), TurnLeft(375.0, 0), TurnRight(375.0, 0)}
    ensures Select(v, tof as real, Tuning) == LostTarget && mem == Memory(0, 0) ==>
      Step(v, tof as real, mem, Tuning).command == TurnRight(375.0, 0)
  {
    HalfSpeedOnly(v, tof as real, mem, Tuning);
  }
}

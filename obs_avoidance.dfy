/** The Webots obs_avoidance controller: spin left for half a second
    whenever a front sensor detects something, otherwise drive forward at
    full speed. */
module ObsAvoidance {
  import opened Motion
  import opened Sensors

  const MaxSpeed: real := 6.27
  const Threshold: real := 100.0

  /** A front sensor, 0 or 7, strictly above the threshold. */
  predicate FrontBlocked(v: Frame) {
    v[0] > Threshold || v[7] > Threshold
  }

  /** `obs_avoidance`: the one command of a step. */
  function Decide(v: Frame): (c: Command)
    ensures SpinsLeft(c) <==> FrontBlocked(v)
    ensures c.holdMs == (if FrontBlocked(v) then 500 else 0)
  {
    if FrontBlocked(v) then TurnLeft(MaxSpeed, 500) else MoveForward(MaxSpeed, 0)
  }

  /** The controller's reading buffer. */
  class Controller {
    var proximityReadings: array<real>

    ghost predicate Valid()
      reads this
    {
      proximityReadings.Length == 8
    }

    /** A zeroed buffer. */
    constructor ()
      ensures Valid() && fresh(proximityReadings)
      ensures proximityReadings[..] == [0.0, 0.0, 0.0, 0.0, 0.0, 0.0, 0.0, 0.0]
    {
      proximityReadings := new real[8](_ => 0.0);
    }

    /** `get_sensor_values`: the eight readings of this step. */
    method GetSensorValues(frame: Frame)
      requires Valid()
      modifies proximityReadings
      ensures proximityReadings[..] == frame
    {
      CopyFrame(frame, proximityReadings);
    }

    /** `obs_avoidance` over the stored readings: a full-speed left spin held
        for 0.5 s when sensor 0 or 7 reads above 100, else full speed ahead
        with no hold. */
    method ObsAvoidance() returns (cmd: Command)
      requires Valid()
      ensures var v := proximityReadings[..];
        (v[0] > Threshold || v[7] > Threshold ==> cmd == Command(-MaxSpeed, MaxSpeed, 500)) &&
        (v[0] <= Threshold && v[7] <= Threshold ==> cmd == Command(MaxSpeed, MaxSpeed, 0))
      ensures cmd == Decide(proximityReadings[..])
    {
      if proximityReadings[0] > Threshold || proximityReadings[7] > Threshold {
        cmd := TurnLeft(MaxSpeed, 500);
      } else {
        cmd := MoveForward(MaxSpeed, 0);
      }
    }
  }

  /** Sensors 1-6 never influence the command. */
  lemma OnlyFrontMatters(v: Frame, u: Frame)
    requires v[0] == u[0] && v[7] == u[7]
    ensures Decide(v) == Decide(u)
  {
  }

  /** The test is strict: front readings of exactly 100 drive forward; the
      controller never turns right or backs up. */
  lemma StrictAndLeftOnly(v: Frame)
    ensures v[0] == Threshold && v[7] == Threshold ==> Decide(v) == MoveForward(6.27, 0)
    ensures !SpinsRight(Decide(v)) && Decide(v).left + Decide(v).right >= 0.0
  {
  }
}

/** Motor commands of the e-puck controllers.
    A motor write sets both wheel speeds; the controller then waits (sleeps
    or steps the simulation) before its next write. A command carries that
    wait as `holdMs`, so a tick's effect on the motors is a sequence of
    commands instead of calls to the motor driver and the sleep primitive. */
module Motion {

  /** One motor write: signed wheel speeds and the minimum time, in
      milliseconds, before the controller writes the motors again. */
  datatype Command = Command(left: real, right: real, holdMs: nat)

  /** `stop`: both wheels at zero. */
  function Stop(holdMs: nat): Command {
    Command(0.0, 0.0, holdMs)
  }

  /** `move_forward(speed)`. */
  function MoveForward(speed: real, holdMs: nat): Command {
    Command(speed, speed, holdMs)
  }

  /** `move_backward(speed)`. */
  function MoveBackward(speed: real, holdMs: nat): Command {
    Command(-speed, -speed, holdMs)
  }

  /** `turn_left(speed)`: left wheel backwards, right wheel forwards. */
  function TurnLeft(speed: real, holdMs: nat): Command {
    Command(-speed, speed, holdMs)
  }

  /** `turn_right(speed)`: left wheel forwards, right wheel backwards. */
  function TurnRight(speed: real, holdMs: nat): Command {
    Command(speed, -speed, holdMs)
  }

  /** The same command with the two wheels exchanged: what the mirror image
      of the robot does. */
  function Swapped(c: Command): Command {
    Command(c.right, c.left, c.holdMs)
  }

  /** Rotation in place, counter-clockwise seen from above. */
  predicate SpinsLeft(c: Command) {
    c.left < 0.0 < c.right && c.left == -c.right
  }

  /** Rotation in place, clockwise seen from above. */
  predicate SpinsRight(c: Command) {
    c.right < 0.0 < c.left && c.left == -c.right
  }

  /** The two turns are mirror images of each other, forward and backward
      are their own mirror images, and with a positive speed each shape
      moves the robot the way its name says. */
  lemma CommandShapes(speed: real, holdMs: nat)
    requires speed > 0.0
    ensures Swapped(TurnLeft(speed, holdMs)) == TurnRight(speed, holdMs)
    ensures Swapped(MoveForward(speed, holdMs)) == MoveForward(speed, holdMs)
    ensures SpinsLeft(TurnLeft(speed, holdMs)) && SpinsRight(TurnRight(speed, holdMs))
    ensures MoveForward(speed, holdMs).left > 0.0 && MoveForward(speed, holdMs).right > 0.0
    ensures MoveBackward(speed, holdMs).left < 0.0 && MoveBackward(speed, holdMs).right < 0.0
    ensures !SpinsLeft(TurnRight(speed, holdMs)) && !SpinsRight(TurnLeft(speed, holdMs))
  {
  }
}

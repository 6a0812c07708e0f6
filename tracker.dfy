/** The target-tracking decision ladder shared by Task2 and the
    Webots obj_tracker controller. One tick picks the first rule that
    applies, in this order: back away from something too close, search for
    a lost target, stop at a reached target, turn towards a side sighting,
    nudge towards a lone front sighting, else drive forward. A two-counter
    memory of the last side with a sighting chooses the search direction. */
module Tracker {
  import opened Motion
  import opened Sensors

  /** Presence threshold, ToF threshold, backward and forward proximity
      thresholds, and the maximum speed. */
  datatype Profile = Profile(pThreshold: real, tThreshold: real, backwardThreshold: real,
                             forwardThreshold: real, maxSpeed: real)

  /** `left_dir_counter` and `right_dir_counter`. */
  datatype Memory = Memory(left: int, right: int)

  /** The rungs of the ladder, in order. */
  datatype Rule = Backward | LostTarget | Reached | SideLeft | SideRight | NudgeLeft | NudgeRight | Forward

  /** The command of a tick and the memory it leaves behind. */
  datatype Outcome = Outcome(command: Command, memory: Memory)

  /** Something very close at the front pair or the diagonals 1 and 6. */
  predicate BackwardOverride(v: Frame, p: Profile) {
    v[0] > p.backwardThreshold || v[7] > p.backwardThreshold ||
    v[1] > p.backwardThreshold || v[6] > p.backwardThreshold
  }

  /** The ToF sees nothing near and no front-trio sensor is weighted; the
      rear sensors 3 and 4 are not consulted. */
  predicate TargetLost(w: Frame, tof: real, p: Profile) {
    tof > p.tThreshold &&
    !(On(w, 5) || On(w, 6) || On(w, 7) || On(w, 0) || On(w, 1) || On(w, 2))
  }

  /** The "reached" test as the source writes it,
      `v0 > F || v7 > F && tof < T`: C's `&&` binds tighter than `||`, so
      the ToF condition guards only sensor 7. */
  predicate ReachedAsWritten(v: Frame, tof: real, p: Profile) {
    v[0] > p.forwardThreshold || (v[7] > p.forwardThreshold && tof < p.tThreshold)
  }

  /** The "reached" test as intended: a front sensor above the forward
      threshold while the ToF reports the target in range. This is the
      test of the corrected ladder. */
  predicate TargetReached(v: Frame, tof: real, p: Profile) {
    (v[0] > p.forwardThreshold || v[7] > p.forwardThreshold) && tof < p.tThreshold
  }

  /** The ladder's rungs in order, given the outcome of its "reached" test. */
  function Ladder(v: Frame, tof: real, p: Profile, reached: bool): Rule {
    var w := Classify(v, p.pThreshold);
    if BackwardOverride(v, p) then Backward
    else if TargetLost(w, tof, p) then LostTarget
    else if reached then Reached
    else if On(w, 5) || On(w, 6) then SideLeft
    else if On(w, 1) || On(w, 2) then SideRight
    else if On(w, 7) && !On(w, 0) && tof > p.tThreshold then NudgeLeft
    else if On(w, 0) && !On(w, 7) && tof > p.tThreshold then NudgeRight
    else Forward
  }

  /** The rule one tick takes, with the corrected "reached" test. The
      backward override is taken exactly when it applies, a stop needs the
      target in ToF range, and the search and the nudges need it beyond. */
  function Select(v: Frame, tof: real, p: Profile): (r: Rule)
    ensures r == Backward <==> BackwardOverride(v, p)
    ensures r == Reached ==> tof < p.tThreshold
    ensures r == LostTarget || r == NudgeLeft || r == NudgeRight ==> tof > p.tThreshold
  {
    Ladder(v, tof, p, TargetReached(v, tof, p))
  }

  /** The rule one tick takes with the "reached" test as the source writes
      it: there a stop with the ToF at or beyond its threshold can only come
      from sensor 0. */
  function SelectAsWritten(v: Frame, tof: real, p: Profile): (r: Rule)
    ensures r == Backward <==> BackwardOverride(v, p)
    ensures r == Reached && tof >= p.tThreshold ==> v[0] > p.forwardThreshold
    ensures r == LostTarget || r == NudgeLeft || r == NudgeRight ==> tof > p.tThreshold
  {
    Ladder(v, tof, p, ReachedAsWritten(v, tof, p))
  }

  /** `get_last_sensor_input_direction`: both counters reset, then the left
      one counts a sighting on 4-7 and the right one counts anything else.
      The result is one-hot, and the left counter is set exactly when some
      sensor from 4 to 7 is weighted. */
  function LastDirection(w: Frame): (m: Memory)
    ensures m == Memory(1, 0) || m == Memory(0, 1)
    ensures m == Memory(0, 1) <==> forall i: Index :: 4 <= i ==> !On(w, i)
  {
    if On(w, 4) || On(w, 5) || On(w, 6) || On(w, 7) then Memory(1, 0) else Memory(0, 1)
  }

  /** What a rule does: every motion uses half the maximum speed and no rule
      holds its command. The lost-target search is the only rule that keeps
      the memory; every other rule records the last sighting's side. */
  function Respond(rule: Rule, w: Frame, mem: Memory, p: Profile): (r: Outcome)
    ensures r.command.holdMs == 0
    ensures rule == LostTarget ==> r.memory == mem
    ensures rule != LostTarget ==> r.memory == LastDirection(w)
  {
    var half := p.maxSpeed / 2.0;
    match rule
    case Backward => Outcome(MoveBackward(half, 0), LastDirection(w))
    case LostTarget => Outcome(if mem.left > mem.right then TurnLeft(half, 0) else TurnRight(half, 0), mem)
    case Reached => Outcome(Stop(0), LastDirection(w))
    case SideLeft => Outcome(TurnLeft(half, 0), LastDirection(w))
    case SideRight => Outcome(TurnRight(half, 0), LastDirection(w))
    case NudgeLeft => Outcome(TurnLeft(half, 0), LastDirection(w))
    case NudgeRight => Outcome(TurnRight(half, 0), LastDirection(w))
    case Forward => Outcome(MoveForward(half, 0), LastDirection(w))
  }

  /** One tick of the corrected ladder. */
  function Step(v: Frame, tof: real, mem: Memory, p: Profile): (r: Outcome)
    ensures r.command.holdMs == 0
    ensures Select(v, tof, p) == LostTarget ==> r.memory == mem
    ensures Select(v, tof, p) != LostTarget ==> r.memory == LastDirection(Classify(v, p.pThreshold))
  {
    Respond(Select(v, tof, p), Classify(v, p.pThreshold), mem, p)
  }

  /** One tick of the ladder as the source writes it. */
  function StepAsWritten(v: Frame, tof: real, mem: Memory, p: Profile): (r: Outcome)
    ensures r.command.holdMs == 0
    ensures SelectAsWritten(v, tof, p) == LostTarget ==> r.memory == mem
    ensures SelectAsWritten(v, tof, p) != LostTarget ==> r.memory == LastDirection(Classify(v, p.pThreshold))
  {
    Respond(SelectAsWritten(v, tof, p), Classify(v, p.pThreshold), mem, p)
  }

  /** The two ladders part exactly when sensor 0 reads above the forward
      threshold, the ToF at or beyond its threshold, and neither the
      backward override nor the lost-target search applies. There the
      ladder as written stops, while the corrected one moves on whenever
      the maximum speed is not zero; everywhere else the ticks agree. */
  lemma WrittenAgreesOutsideGap(v: Frame, tof: real, mem: Memory, p: Profile)
    ensures var gap := v[0] > p.forwardThreshold && tof >= p.tThreshold &&
                       !BackwardOverride(v, p) && !TargetLost(Classify(v, p.pThreshold), tof, p);
      && (SelectAsWritten(v, tof, p) != Select(v, tof, p) <==> gap)
      && (!gap ==> StepAsWritten(v, tof, mem, p) == Step(v, tof, mem, p))
      && (gap ==> StepAsWritten(v, tof, mem, p).command == Stop(0))
      && (gap && p.maxSpeed != 0.0 ==> Step(v, tof, mem, p).command != Stop(0))
  {
  }

  /** The backward override wins over every other rule. */
  lemma BackwardFirst(v: Frame, tof: real, mem: Memory, p: Profile)
    requires BackwardOverride(v, p)
    ensures Step(v, tof, mem, p).command == MoveBackward(p.maxSpeed / 2.0, 0)
    ensures Step(v, tof, mem, p).memory == LastDirection(Classify(v, p.pThreshold))
  {
  }

  /** Lost target: spin left iff the left counter is the larger, else
      right; the counters are left as they were. */
  lemma LostTargetSearch(v: Frame, tof: real, mem: Memory, p: Profile)
    requires !BackwardOverride(v, p) && TargetLost(Classify(v, p.pThreshold), tof, p)
    ensures Step(v, tof, mem, p).memory == mem
    ensures Step(v, tof, mem, p).command ==
      if mem.left > mem.right then TurnLeft(p.maxSpeed / 2.0, 0) else TurnRight(p.maxSpeed / 2.0, 0)
    ensures mem == Memory(0, 0) ==> Step(v, tof, mem, p).command == TurnRight(p.maxSpeed / 2.0, 0)
  {
  }

  /** The rear sensors 3 and 4 never change which rule is taken (sensor 4
      only feeds the memory). */
  lemma RearSensorsDoNotSelect(v: Frame, u: Frame, tof: real, p: Profile)
    requires forall i: Index :: i != 3 && i != 4 ==> v[i] == u[i]
    ensures Select(v, tof, p) == Select(u, tof, p)
  {
    var w, x := Classify(v, p.pThreshold), Classify(u, p.pThreshold);
    assert forall i: Index :: i != 3 && i != 4 ==> (On(w, i) <==> On(x, i));
  }

  /** After every rule except the lost-target search the memory is one-hot:
      (1, 0) iff one of sensors 4-7 is weighted, else (0, 1). */
  lemma MemoryOneHot(v: Frame, tof: real, mem: Memory, p: Profile)
    requires Select(v, tof, p) != LostTarget
    ensures var w := Classify(v, p.pThreshold);
      var m := Step(v, tof, mem, p).memory;
      (m == Memory(1, 0) <==> On(w, 4) || On(w, 5) || On(w, 6) || On(w, 7)) &&
      (m == Memory(0, 1) <==> !(On(w, 4) || On(w, 5) || On(w, 6) || On(w, 7)))
  {
  }

  /** Every command is a stop or a half-speed move or spin. */
  lemma HalfSpeedOnly(v: Frame, tof: real, mem: Memory, p: Profile)
    ensures var c := Step(v, tof, mem, p).command;
      var half := p.maxSpeed / 2.0;
      c in {Stop(0), MoveForward(half, 0), MoveBackward(half, 0), TurnLeft(half, 0), TurnRight(half, 0)}
  {
  }

  /** The ladder turns towards the side it sees something on: sightings on
      5 or 6, or on 7 alone, spin it left; sightings on 1 or 2, or on 0
      alone, spin it right. */
  lemma TurnsTowardsSighting(v: Frame, tof: real, mem: Memory, p: Profile)
    requires p.maxSpeed > 0.0
    ensures var r := Select(v, tof, p);
      var w := Classify(v, p.pThreshold);
      && (r == SideLeft ==> (On(w, 5) || On(w, 6)) && SpinsLeft(Step(v, tof, mem, p).command))
      && (r == SideRight ==> (On(w, 1) || On(w, 2)) && !On(w, 5) && !On(w, 6) && SpinsRight(Step(v, tof, mem, p).command))
      && (r == NudgeLeft ==> On(w, 7) && !On(w, 0) && SpinsLeft(Step(v, tof, mem, p).command))
      && (r == NudgeRight ==> On(w, 0) && !On(w, 7) && SpinsRight(Step(v, tof, mem, p).command))
  {
  }

  /** Nothing seen by the proximity ring: search when the ToF reads beyond
      its threshold, otherwise drive forward. */
  lemma ClearRing(v: Frame, tof: real, mem: Memory, p: Profile)
    requires forall i: Index :: v[i] <= p.pThreshold
    requires p.pThreshold <= p.forwardThreshold && p.pThreshold <= p.backwardThreshold
    ensures tof > p.tThreshold ==> Select(v, tof, p) == LostTarget
    ensures tof <= p.tThreshold ==> Step(v, tof, mem, p).command == MoveForward(p.maxSpeed / 2.0, 0)
  {
    var w := Classify(v, p.pThreshold);
    assert forall i: Index :: !On(w, i);
  }

  /** The memories the ladder passes through: (0, 0) before any tick and
      one-hot afterwards. */
  predicate WellFormed(m: Memory) {
    m == Memory(0, 0) || m == Memory(1, 0) || m == Memory(0, 1)
  }

  /** One tick's readings. */
  datatype Sample = Sample(v: Frame, tof: real)

  /** The memory after a run of ticks. */
  function MemoryAfter(samples: seq<Sample>, mem: Memory, p: Profile): Memory
    decreases |samples|
  {
    if samples == [] then mem
    else MemoryAfter(samples[1..], Step(samples[0].v, samples[0].tof, mem, p).memory, p)
  }

  /** From the initial (0, 0), every run of ticks leaves a well-formed memory,
      so the search compares counters that are 0 or 1. */
  lemma {:induction false} MemoryStaysWellFormed(samples: seq<Sample>, mem: Memory, p: Profile)
    requires WellFormed(mem)
    ensures WellFormed(MemoryAfter(samples, mem, p))
    decreases |samples|
  {
    if samples != [] {
      var next := Step(samples[0].v, samples[0].tof, mem, p).memory;
      if Select(samples[0].v, samples[0].tof, p) != LostTarget {
        MemoryOneHot(samples[0].v, samples[0].tof, mem, p);
      }
      MemoryStaysWellFormed(samples[1..], next, p);
    }
  }

  /** As written, a reading above the forward threshold on sensor 0 alone
      stops the robot whatever the ToF reads, while sensor 7 needs the ToF
      below its threshold. */
  lemma ReachedAsWrittenIgnoresTof(v: Frame, tof: real, p: Profile)
    ensures v[0] > p.forwardThreshold ==> ReachedAsWritten(v, tof, p)
    ensures v[0] <= p.forwardThreshold ==> (ReachedAsWritten(v, tof, p) <==> v[7] > p.forwardThreshold && tof < p.tThreshold)
  {
  }

  /** The corrected test needs the target in ToF range for both front
      sensors, and treats them symmetrically. */
  lemma ReachedNeedsTargetInRange(v: Frame, tof: real, p: Profile)
    ensures TargetReached(v, tof, p) ==> tof < p.tThreshold
    ensures TargetReached(v, tof, p) <==> TargetReached(Mirror(v), tof, p)
    ensures tof < p.tThreshold ==> (TargetReached(v, tof, p) <==> ReachedAsWritten(v, tof, p))
  {
  }
}

/** The Webots test_controller2: forward unless the front is blocked, then a
    turn towards the side whose front pair reads less, with a dead-end turn
    and an anti-circling turn driven by two consecutive-turn counters. */
module TestController2 {
  import opened Motion
  import opened Sensors

  const MaxSpeed: real := 6.27
  /** The proximity reading above which the front counts as blocked. */
  const Blocked: real := 500.0
  /** The side reading above which a dead end is recognised. */
  const Walled: real := 400.0
  /** Consecutive turns to one side after which the robot breaks out. */
  const CircleLimit: int := 5

  /** `times_left` and `times_right`: consecutive turns to each side. */
  datatype Counters = Counters(timesLeft: int, timesRight: int)

  /** The commands of one call of `obs_avoidance` and the counters it leaves. */
  datatype Outcome = Outcome(commands: seq<Command>, counters: Counters)

  /** C's conversion of a floating value to `int`: truncation toward zero. */
  function TruncToInt(x: real): (r: int)
    ensures x >= 0.0 ==> r as real <= x < r as real + 1.0
    ensures x < 0.0 ==> r as real - 1.0 < x <= r as real
  {
    if x >= 0.0 then x.Floor else -((-x).Floor)
  }

  /** `sum_right`: the right front pair 0 and 1, stored into an `int`. */
  function SumRight(v: Frame): int { TruncToInt(v[0] + v[1]) }

  /** `sum_left`: the left front pair 6 and 7, stored into an `int`. */
  function SumLeft(v: Frame): int { TruncToInt(v[6] + v[7]) }

  /** A front sensor blocked and both sides walled. */
  predicate DeadEnd(v: Frame) {
    (v[0] > Blocked || v[7] > Blocked) && v[2] > Walled && v[5] > Walled
  }

  /** None of the four front sensors 0, 1, 6, 7 is blocked. */
  predicate ClearAhead(v: Frame) {
    v[0] <= Blocked && v[1] <= Blocked && v[6] <= Blocked && v[7] <= Blocked
  }

  /** Too many consecutive turns to one side. */
  predicate Circling(c: Counters) {
    c.timesLeft >= CircleLimit || c.timesRight >= CircleLimit
  }

  /** `n` copies of one command. */
  function Repeat(c: Command, n: nat): (r: seq<Command>)
    ensures |r| == n && forall i :: 0 <= i < n ==> r[i] == c
  {
    seq(n, _ => c)
  }

  /** One more copy of a command in front of `n` copies. */
  lemma OneMoreTurn(c: Command, n: nat)
    ensures [c] + Repeat(c, n) == Repeat(c, 1 + n)
  {
  }

  /** How many successive readings of the watched sensor read blocked:
      the index of the first clear one, or all of them. */
  function FirstClear(readings: seq<real>): (n: nat)
    ensures n <= |readings|
    ensures forall j :: 0 <= j < n ==> readings[j] > Blocked
    ensures n < |readings| ==> readings[n] <= Blocked
  {
    if readings == [] || readings[0] <= Blocked then 0 else 1 + FirstClear(readings[1..])
  }

  const LeftTurn: Command := TurnLeft(MaxSpeed / 3.0, 50)
  const RightTurn: Command := TurnRight(MaxSpeed / 3.0, 50)
  const LongLeftTurn: Command := TurnLeft(MaxSpeed / 3.0, 2000)

  /** The diagonal the turn loop watches: sensor 1 when the call turns left
      (the right pair sums to at least the left pair), else sensor 6. */
  function Watched(v: Frame): real {
    if SumRight(v) >= SumLeft(v) then v[1] else v[6]
  }

  /** What a call issues before its decision: the 2 s left turn of a dead
      end, then the 2 s left turn of the anti-circling reset. */
  function Before(v: Frame, c: Counters): seq<Command> {
    (if DeadEnd(v) then [LongLeftTurn] else []) + (if Circling(c) then [LongLeftTurn] else [])
  }

  /** One call of `obs_avoidance`, given how many passes its turn loop
      makes. A dead end turns left for 2 s and does not end the call; too
      many consecutive turns reset both counters and turn left for 2 s; then
      either forward at half speed, or a 50 ms turn towards the side with
      the smaller front sum (a tie turns left) followed by the loop's
      passes, each one more 50 ms turn. */
  function Call(v: Frame, c: Counters, passes: nat): (r: Outcome)
    ensures |r.commands| >= 1
    ensures ClearAhead(v) ==> r.commands[|r.commands| - 1] == MoveForward(MaxSpeed / 2.0, 0)
    ensures !ClearAhead(v) ==> r.commands[|r.commands| - 1] in {LeftTurn, RightTurn}
    ensures !ClearAhead(v) ==> r.counters.timesLeft == 0 || r.counters.timesRight == 0
  {
    var kept := if Circling(c) then Counters(0, 0) else c;
    if ClearAhead(v) then
      Outcome(Before(v, c) + [MoveForward(MaxSpeed / 2.0, 0)], kept)
    else if SumRight(v) >= SumLeft(v) then
      Outcome(Before(v, c) + Repeat(LeftTurn, 1 + passes), Counters(kept.timesLeft + 1, 0))
    else
      Outcome(Before(v, c) + Repeat(RightTurn, 1 + passes), Counters(0, kept.timesRight + 1))
  }

  /** The passes of the corrected turn loop: none if the watched diagonal
      as stored for this step is clear, else one per blocked re-read up to
      the first clear one, plus one. */
  function Passes(stored: real, rereads: seq<real>): nat {
    if stored <= Blocked then 0 else 1 + FirstClear(rereads)
  }

  /** The passes are the blocked readings before the first clear one, when
      the stored reading is read first. */
  lemma PassesAreFirstClear(stored: real, rereads: seq<real>)
    ensures Passes(stored, rereads) == FirstClear([stored] + rereads)
  {
    assert ([stored] + rereads)[0] == stored && ([stored] + rereads)[1..] == rereads;
  }

  /** One call with the corrected turn loop: the loop tests the watched
      diagonal as stored for this step, then `rereads`, its re-reads after
      each pass, and stops at the first clear reading. */
  function Step(v: Frame, c: Counters, rereads: seq<real>): (r: Outcome)
    ensures |r.commands| >= 1
    ensures ClearAhead(v) ==> r.commands[|r.commands| - 1] == MoveForward(MaxSpeed / 2.0, 0)
    ensures !ClearAhead(v) ==> r.commands[|r.commands| - 1] in {LeftTurn, RightTurn}
    ensures !ClearAhead(v) ==> r.counters.timesLeft == 0 || r.counters.timesRight == 0
  {
    Call(v, c, Passes(Watched(v), rereads))
  }

  /** One call as the source writes it: the loop tests the stored reading
      of the watched diagonal, which it never refreshes, so it makes no
      pass when that reading is clear and otherwise runs until the
      simulation ends; `fuel` bounds its passes. */
  function StepAsWritten(v: Frame, c: Counters, fuel: nat): (r: Outcome)
    ensures |r.commands| >= 1
    ensures !ClearAhead(v) && Watched(v) > Blocked ==> |r.commands| == |Before(v, c)| + 1 + fuel
  {
    Call(v, c, if Watched(v) > Blocked then fuel else 0)
  }

  /** The corrected call agrees with the call as written whenever the front
      is clear or the watched diagonal's stored reading is clear; then a
      blocked front gives exactly one 50 ms turn. Only a blocked watched
      diagonal tells them apart: as written the loop runs until the bound,
      while the corrected one stops at the first clear re-read. */
  lemma WrittenAgreesUnlessWatchedBlocked(v: Frame, c: Counters, rereads: seq<real>, fuel: nat)
    ensures ClearAhead(v) || Watched(v) <= Blocked ==> Step(v, c, rereads) == StepAsWritten(v, c, fuel)
    ensures !ClearAhead(v) && Watched(v) <= Blocked ==>
      Step(v, c, rereads).commands == Before(v, c) + [if SumRight(v) >= SumLeft(v) then LeftTurn else RightTurn]
    ensures !ClearAhead(v) && Watched(v) > Blocked ==>
      |Step(v, c, rereads).commands| == |Before(v, c)| + 2 + FirstClear(rereads) &&
      |StepAsWritten(v, c, fuel).commands| == |Before(v, c)| + 1 + fuel
  {
  }

  /** The inner turn loop as the source writes it: the condition tests the
      reading taken before the call, which the loop body never refreshes,
      so once entered it only stops when the simulation does. `fuel` bounds
      the passes. */
  method TurnLoopAsWritten(turn: Command, reading: real, fuel: nat) returns (cmds: seq<Command>)
    ensures reading > Blocked ==> cmds == Repeat(turn, fuel)
    ensures reading <= Blocked ==> cmds == []
  {
    cmds := [];
    var k := 0;
    while k < fuel && reading > Blocked
      invariant 0 <= k <= fuel
      invariant reading <= Blocked ==> k == 0
      invariant cmds == Repeat(turn, k)
    {
      cmds := cmds + [turn];
      k := k + 1;
    }
  }

  /** The inner turn loop corrected: each test uses a fresh reading of the
      watched sensor (the first one the reading stored for this step, then
      a re-read after every pass), so the loop stops at the first clear
      reading. */
  method TurnUntilClear(turn: Command, readings: seq<real>) returns (cmds: seq<Command>)
    ensures cmds == Repeat(turn, FirstClear(readings))
    ensures forall j :: 0 <= j < |cmds| ==> readings[j] > Blocked
    ensures |cmds| < |readings| ==> readings[|cmds|] <= Blocked
  {
    cmds := [];
    var k := 0;
    while k < |readings| && readings[k] > Blocked
      invariant 0 <= k <= |readings|
      invariant forall j :: 0 <= j < k ==> readings[j] > Blocked
      invariant cmds == Repeat(turn, k)
    {
      cmds := cmds + [turn];
      k := k + 1;
    }
    FirstClearIsFirst(readings, k);
  }

  /** The turn block of a call: one 50 ms turn, then the corrected loop over
      the watched diagonal's stored reading and its re-reads. */
  method TurnAway(turn: Command, stored: real, rereads: seq<real>) returns (cmds: seq<Command>)
    ensures cmds == Repeat(turn, 1 + Passes(stored, rereads))
  {
    var more := TurnUntilClear(turn, [stored] + rereads);
    PassesAreFirstClear(stored, rereads);
    OneMoreTurn(turn, Passes(stored, rereads));
    cmds := [turn] + more;
  }

  /** FirstClear is the index of the first clear reading. */
  lemma {:induction false} FirstClearIsFirst(readings: seq<real>, k: nat)
    requires k <= |readings|
    requires forall j :: 0 <= j < k ==> readings[j] > Blocked
    requires k < |readings| ==> readings[k] <= Blocked
    ensures FirstClear(readings) == k
  {
    if k > 0 {
      FirstClearIsFirst(readings[1..], k - 1);
    }
  }

  /** A blocked reading keeps the loop as written turning for as long as it
      is allowed to run, while the corrected loop stops as soon as the
      sensor reads clear: sensor 1 stored at 600 and re-read at 100 after
      the first pass gives 1000 passes against 1. */
  method StaleLoopCounterexample() returns (asWritten: seq<Command>, corrected: seq<Command>)
    ensures |asWritten| == 1000 && |corrected| == 1
  {
    asWritten := TurnLoopAsWritten(LeftTurn, 600.0, 1000);
    corrected := TurnUntilClear(LeftTurn, [600.0, 100.0]);
  }

  /** The three outcomes of a call, spelled out for the imperative version. */
  lemma StepUnfolds(v: Frame, c: Counters, rereads: seq<real>)
    ensures var kept := if Circling(c) then Counters(0, 0) else c;
      var out := Step(v, c, rereads);
      && (ClearAhead(v) ==> out == Outcome(Before(v, c) + [MoveForward(MaxSpeed / 2.0, 0)], kept))
      && (!ClearAhead(v) && SumRight(v) >= SumLeft(v) ==>
            out == Outcome(Before(v, c) + Repeat(LeftTurn, 1 + Passes(v[1], rereads)), Counters(kept.timesLeft + 1, 0)))
      && (!ClearAhead(v) && SumRight(v) < SumLeft(v) ==>
            out == Outcome(Before(v, c) + Repeat(RightTurn, 1 + Passes(v[6], rereads)), Counters(0, kept.timesRight + 1)))
  {
  }

  /** The same input for a whole call: front blocked by 600 on sensors 0
      and 1, so the call turns left; sensor 1 re-reads 100 after the first
      pass. The corrected call issues the turn and one pass, while the call
      as written issues the turn and then as many passes as it may run. */
  lemma StaleLoopStep()
    ensures var v: Frame := [600.0, 600.0, 0.0, 0.0, 0.0, 0.0, 0.0, 0.0];
      && Step(v, Counters(0, 0), [100.0]).commands == [LeftTurn, LeftTurn]
      && StepAsWritten(v, Counters(0, 0), 1000).commands == Repeat(LeftTurn, 1001)
  {
    var v: Frame := [600.0, 600.0, 0.0, 0.0, 0.0, 0.0, 0.0, 0.0];
    assert SumRight(v) == 1200 && SumLeft(v) == 0;
  }

  /** The simulation state `obs_avoidance` reads and writes. */
  class Controller {
    var valProximity: array<real>
    var tofReadings: real
    var sumRight: int
    var sumLeft: int
    var timesLeft: int
    var timesRight: int

    ghost predicate Valid()
      reads this
    {
      valProximity.Length == 8
    }

    /** The counters held in `times_left` and `times_right`. */
    function Counts(): Counters
      reads this
    {
      Counters(timesLeft, timesRight)
    }

    /** The zero-initialised globals. */
    constructor ()
      ensures Valid() && fresh(valProximity)
      ensures valProximity[..] == [0.0, 0.0, 0.0, 0.0, 0.0, 0.0, 0.0, 0.0]
      ensures tofReadings == 0.0 && sumRight == 0 && sumLeft == 0 && Counts() == Counters(0, 0)
    {
      valProximity := new real[8](_ => 0.0);
      tofReadings, sumRight, sumLeft, timesLeft, timesRight := 0.0, 0, 0, 0, 0;
    }

    /** `get_sensor_values`: the eight readings and the ToF distance. */
    method GetSensorValues(frame: Frame, tof: real)
      requires Valid()
      modifies valProximity, this`tofReadings
      ensures valProximity[..] == frame && tofReadings == tof
    {
      CopyFrame(frame, valProximity);
      tofReadings := tof;
    }

    /** The 2 s left turns that open a call: one for a dead end, one for
        too many consecutive turns, which also resets both counters. */
    method EscapeTurns(v: Frame) returns (before: seq<Command>)
      modifies this`timesLeft, this`timesRight
      ensures before == Before(v, old(Counts()))
      ensures Counts() == if Circling(old(Counts())) then Counters(0, 0) else old(Counts())
    {
      before := [];
      if (v[0] > Blocked || v[7] > Blocked) && v[2] > Walled && v[5] > Walled {
        before := before + [LongLeftTurn];
      }
      if timesLeft >= CircleLimit || timesRight >= CircleLimit {
        timesLeft := 0;
        timesRight := 0;
        before := before + [LongLeftTurn];
      }
    }

    /** The decision of a call over the stored sums: forward at half speed
        when the front is clear, else a 50 ms turn away from the larger sum
        and the corrected turn loop, counting the turn on its side. */
    method Decide(v: Frame, rereads: seq<real>) returns (tail: seq<Command>)
      requires sumRight == SumRight(v) && sumLeft == SumLeft(v)
      modifies this`timesLeft, this`timesRight
      ensures ClearAhead(v) ==> tail == [MoveForward(MaxSpeed / 2.0, 0)] && Counts() == old(Counts())
      ensures !ClearAhead(v) && SumRight(v) >= SumLeft(v) ==>
        tail == Repeat(LeftTurn, 1 + Passes(v[1], rereads)) && Counts() == Counters(old(timesLeft) + 1, 0)
      ensures !ClearAhead(v) && SumRight(v) < SumLeft(v) ==>
        tail == Repeat(RightTurn, 1 + Passes(v[6], rereads)) && Counts() == Counters(0, old(timesRight) + 1)
    {
      if v[0] <= Blocked && v[1] <= Blocked && v[6] <= Blocked && v[7] <= Blocked {
        tail := [MoveForward(MaxSpeed / 2.0, 0)];
      } else if sumRight >= sumLeft {
        timesLeft := timesLeft + 1;
        timesRight := 0;
        tail := TurnAway(LeftTurn, v[1], rereads);
      } else {
        timesRight := timesRight + 1;
        timesLeft := 0;
        tail := TurnAway(RightTurn, v[6], rereads);
      }
    }

    /** `obs_avoidance` over the stored readings, with the corrected turn
        loop; `rereads` are the re-reads of the diagonal the turn watches,
        one after each pass of the loop. */
    method ObsAvoidance(rereads: seq<real>) returns (cmds: seq<Command>)
      requires Valid()
      modifies this`sumRight, this`sumLeft, this`timesLeft, this`timesRight
      ensures var out := Step(old(valProximity[..]), old(Counts()), rereads);
        cmds == out.commands && Counts() == out.counters
      ensures sumRight == SumRight(valProximity[..]) && sumLeft == SumLeft(valProximity[..])
    {
      var v: Frame := valProximity[..];
      ghost var c := Counts();
      sumLeft := 0;
      sumRight := 0;
      sumRight := TruncToInt(v[0] + v[1]);
      sumLeft := TruncToInt(v[6] + v[7]);
      var before := EscapeTurns(v);
      var tail := Decide(v, rereads);
      cmds := before + tail;
      StepUnfolds(v, c, rereads);
    }

    /** One simulation step: read the sensors, then `obs_avoidance`. */
    method Tick(frame: Frame, tof: real, rereads: seq<real>) returns (cmds: seq<Command>)
      requires Valid()
      modifies valProximity, this`tofReadings, this`sumRight, this`sumLeft, this`timesLeft, this`timesRight
      ensures Valid() && valProximity[..] == frame && tofReadings == tof
      ensures var out := Step(frame, old(Counts()), rereads);
        cmds == out.commands && Counts() == out.counters
      ensures sumRight == SumRight(frame) && sumLeft == SumLeft(frame)
    {
      GetSensorValues(frame, tof);
      cmds := ObsAvoidance(rereads);
    }
  }

  /** A dead end never ends the call: its 2 s left turn is always followed
      by a turn (a blocked front sensor rules out driving forward). */
  lemma DeadEndThenTurn(v: Frame, c: Counters, rereads: seq<real>)
    requires DeadEnd(v)
    ensures var cmds := Step(v, c, rereads).commands;
      |cmds| >= 2 && cmds[0] == LongLeftTurn &&
      (cmds[|cmds| - 1] == LeftTurn || cmds[|cmds| - 1] == RightTurn)
  {
  }

  /** Five consecutive turns to one side trigger the 2 s left turn and a
      reset, so the counters after the call are at most 1. */
  lemma CirclingBreaksOut(v: Frame, c: Counters, rereads: seq<real>)
    requires Circling(c)
    ensures var out := Step(v, c, rereads);
      LongLeftTurn in out.commands &&
      0 <= out.counters.timesLeft <= 1 && 0 <= out.counters.timesRight <= 1
  {
    var out := Step(v, c, rereads);
    var k := if DeadEnd(v) then 1 else 0;
    assert out.commands[k] == LongLeftTurn;
  }

  /** Driving forward leaves the counters as they were (unless a reset
      happened); a turn extends its own side's run and clears the other. */
  lemma CountersFollowTurns(v: Frame, c: Counters, rereads: seq<real>)
    requires !Circling(c)
    ensures ClearAhead(v) ==> Step(v, c, rereads).counters == c
    ensures !ClearAhead(v) && SumRight(v) >= SumLeft(v) ==>
      Step(v, c, rereads).counters == Counters(c.timesLeft + 1, 0) && Step(v, c, rereads).commands[|Step(v, c, rereads).commands| - 1] == LeftTurn
    ensures !ClearAhead(v) && SumRight(v) < SumLeft(v) ==>
      Step(v, c, rereads).counters == Counters(0, c.timesRight + 1) && Step(v, c, rereads).commands[|Step(v, c, rereads).commands| - 1] == RightTurn
  {
  }

  /** Truncation to `int` is monotone, so a right pair reading at least as
      much as the left pair turns the robot left... */
  lemma TruncMonotone(x: real, y: real)
    requires x <= y
    ensures TruncToInt(x) <= TruncToInt(y)
  {
  }

  /** ...and it can also turn left when the left pair reads more: 600.2 +
      0.0 against 0.3 + 600.4 truncates to 600 on both sides, a tie. */
  lemma TruncationTie()
    ensures var v: Frame := [600.2, 0.0, 0.0, 0.0, 0.0, 0.0, 0.3, 600.4];
      v[0] + v[1] < v[6] + v[7] && SumRight(v) == SumLeft(v) &&
      Step(v, Counters(0, 0), []).commands == [LeftTurn]
  {
    var v: Frame := [600.2, 0.0, 0.0, 0.0, 0.0, 0.0, 0.3, 600.4];
    assert SumRight(v) == 600 && SumLeft(v) == 600;
  }

  /** The counters the loop passes through: both at least 0, at most 5, and
      never both non-zero. */
  predicate CountersOk(c: Counters) {
    0 <= c.timesLeft <= CircleLimit && 0 <= c.timesRight <= CircleLimit &&
    (c.timesLeft == 0 || c.timesRight == 0)
  }

  /** One step's inputs. */
  datatype Sample = Sample(v: Frame, rereads: seq<real>)

  /** The counters after a run of steps. */
  function CountersAfter(samples: seq<Sample>, c: Counters): Counters
    decreases |samples|
  {
    if samples == [] then c
    else CountersAfter(samples[1..], Step(samples[0].v, c, samples[0].rereads).counters)
  }

  /** One step keeps the counters well formed. */
  lemma StepKeepsCountersOk(v: Frame, c: Counters, rereads: seq<real>)
    requires CountersOk(c)
    ensures CountersOk(Step(v, c, rereads).counters)
  {
  }

  /** From the initial (0, 0), no run of steps ever lets a counter pass 5:
      the fifth consecutive turn to a side is followed, on the next step, by
      the break-out turn and a reset. */
  lemma {:induction false} CountersStayOk(samples: seq<Sample>, c: Counters)
    requires CountersOk(c)
    ensures CountersOk(CountersAfter(samples, c))
    decreases |samples|
  {
    if samples != [] {
      StepKeepsCountersOk(samples[0].v, c, samples[0].rereads);
      CountersStayOk(samples[1..], Step(samples[0].v, c, samples[0].rereads).counters);
    }
  }
}

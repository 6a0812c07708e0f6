# e-puck reactive navigation, modelled in Dafny

This project models the per-tick navigation decision of the e-puck2 robot
controllers: two firmware programs for the physical robot (Task1, Task2)
and five Webots simulation controllers (custom_braitenberg_controller,
obj_tracker, test_controller, test_controller2, obs_avoidance). Each tick
reads the eight infrared proximity sensors (0 and 7 at the front, 1/2 on
the right, 5/6 on the left, 3/4 at the back), plus the time-of-flight (ToF)
distance in the tracking variants. It keeps a little state between ticks
and writes the two wheel motors.

A motor write followed by a sleep or `passive_wait` is a
`Motion.Command(left, right, holdMs)`, and one tick yields the sequence of
commands it issues. The building blocks the controllers share are pure
modules:

- `Sensors`: 0/1 threshold classification of a frame of readings.
- `Braitenberg`: the steering formula `(1 - Σ w·coef) · MAX_SPEED`, with
  the right trio 0, 1, 2 driving the left wheel and the left trio 7, 6, 5
  driving the right wheel.
- `Recovery`: the "stray critical" and "U-block" tests.
- `Leds`: the sensor-to-LED mapping of the firmware.
- `Avoidance`: the engine shared by Task1 and custom_braitenberg_controller.
- `Tracker`: the decision ladder shared by Task2 and obj_tracker.

Each controller file is a module with a `Controller` class. The class holds
that program's globals: the sensor and weight buffers as arrays, and the
speeds, counters, ToF reading and LED states as fields. Its methods change
those fields as the C functions do. Each `Tick` method is proved equal to
the pure specification of one pass of the main loop, and the lemmas state
what the programs promise about that specification.

Where the controllers' documented behaviour and their code differ, the
model follows the code. There are two exceptions, where the code is wrong
(see Findings). The model keeps both the code as written and a corrected
version, and the `Tick` methods use the corrected version. The first
exception is the "reached" test of the tracking ladder: the ladder as
written is `Tracker.SelectAsWritten`, and the corrected one is
`Tracker.Select`. The second is the turn loop of test_controller2.
Elsewhere the model follows the code:
- Every escape rotation (U-block, dead end, anti-circling) turns in a
  fixed direction. None depends on the direction memory or on randomness.
- The lost-target search compares the two direction counters, so the
  first search from the initial (0, 0) turns right.
- The tracking ladder has no stray-critical or dead-end rung.
- The anti-circling counters trigger at `>= 5`.

The comment over the right-trio stray response in Task1/main.c:266 says
"rotate right". The code sets (-MAX/2, +MAX/2), which is a left
(counter-clockwise) rotation, away from the right trio.
`Task1.StrayResponses` proves the rotation the code performs.

## Model

| member | source | states |
|---|---|---|
| `Motion.CommandShapes` | Task2/main.c:147-182 | stop, forward, backward, turn-left (-s, +s) and turn-right (+s, -s) shapes: the turns mirror each other and each moves the way its name says |
| `Sensors.Classify` | Task1/main.c:132-140 | every weight is 0 or 1, and weight i is set iff reading i is strictly above the threshold |
| `Sensors.CopyFrame` | Task1/main.c:122-127 | the buffer afterwards holds exactly the eight readings of the tick |
| `Sensors.FillWeights` | Task1/main.c:132-140 | all eight weights are overwritten with the classification of the current readings |
| `Sensors.ZeroWeights` | Task1/main.c:321-324 | all eight weights are 0 afterwards |
| `Braitenberg.Steer` | Task1/main.c:207-222 | one unheld motor write; with no weight set both wheels run at MAX |
| `Braitenberg.Cruise` | Task1/main.c:207-222 | with no weight set both wheels run at MAX_SPEED |
| `Braitenberg.WheelsReadOwnTrio` | Task1/main.c:207-222 | the left speed depends only on weights 0, 1, 2 and the right speed only on 7, 6, 5 |
| `Braitenberg.MirrorSwapsWheels` | Task1/main.c:207-222 | mirroring the weights (i to 7 - i) exchanges the two wheel speeds |
| `Braitenberg.FullTrio` | Task1/main.c:207-218 | a full right trio gives the left wheel (1 - coefficient sum) · MAX, and a full left trio gives the right wheel the same; either goes negative when the sum exceeds 1 (no clamp) |
| `Braitenberg.SetWeightSlowsWheel` | epuck2_webots_project/controllers/custom_braitenberg_controller/custom_braitenberg_controller.c:139-155 | setting one more weight lowers the wheel whose trio holds it by that coefficient times MAX and leaves the other wheel alone; a rear weight changes nothing |
| `Braitenberg.SpeedBounded` | Task1/main.c:57 | with 0/1 weights and coefficients in [0, 1] summing to at most 2, each wheel stays in [-MAX, MAX] |
| `Recovery.CriticalSide` | Task1/main.c:227-279 | a stray needs some reading above the critical threshold and leaves the opposite trio clear; the left trio is tested first |
| `Recovery.UBlock` | Task1/main.c:306-308 | the U-block needs both front trios occupied, so it never meets a stray |
| `Recovery.LeftStrayIsLoneCritical` | Task1/main.c:229-250 | the left test holds iff exactly one of 5, 6, 7 is weighted and reads above the critical threshold, and 0, 1, 2 are all clear |
| `Recovery.RightStrayIsLoneCritical` | Task1/main.c:253-274 | the mirror statement for the right trio 0, 1, 2 |
| `Recovery.StraysExclusive` | Task1/main.c:227-279 | the two stray tests never hold together when the critical threshold is at least the presence threshold |
| `Recovery.StrayMirror` | Task1/main.c:227-279 | the left test on a frame is the right test on its mirror image, and back |
| `Recovery.WallIsNotStray` | Task1/main.c:227-279 | two weighted sensors in one trio make neither stray branch fire |
| `Recovery.UBlockNeedsEveryZone` | Task1/main.c:306-308 | clearing any of the three zones switches the U-block off; the test is mirror-symmetric |
| `Leds.Pattern` | Task1/main.c:145-193 | the reference mapping, LED k lit iff one of its sensors reads above the threshold, is eight LEDs: LED 0 for sensors 0/7, LEDs 1-3 for sensors 1-3, LED 4 for 3/4, LEDs 5-7 for sensors 4-6 |
| `Leds.GlowLeds` | Task1/main.c:145-193 | the eight LED states equal the reference mapping: LED k lit iff one of its sensors reads above the threshold |
| `Leds.EveryDetectionShown` | Task1/main.c:145-193 | every reading above the threshold lights at least one LED that shows its sensor |
| `Leds.SevenOnlyOnLedZero` | Task1/main.c:145-149 | sensor 7 is shown only by LED 0 |
| `Leds.PatternFollowsWeights` | Task2/main.c:203-251 | frames with the same classification light the same LEDs |
| `Avoidance.Decide` | Task1/main.c:300-319 | one tick is two commands iff a stray fires, else one; its last command is unheld iff neither a stray nor a U-block applies |
| `Avoidance.StrayPreempts` | Task1/main.c:301-303 | a stray tick is stop (500 ms) then a half-speed spin away from the flagged trio (500 ms), and nothing else runs |
| `Avoidance.UBlockOnlyWithoutStray` | Task1/main.c:301-319 | without a stray the tick is one command: under a U-block a counter-clockwise spin at the escape speed held 500 ms; otherwise an unheld steering command whose wheels stay in [-MAX, MAX] under the tuning rule |
| `Avoidance.CruiseWhenClear` | Task1/main.c:207-222 | nothing above the threshold gives one command: forward at MAX |
| `Avoidance.SteersAwayFromRight` | Task1/main.c:207-222 | when only the right trio sees something, the left wheel is slower and the right wheel is at MAX |
| `Task1.Controller.constructor` | Task1/main.c:60-64 | globals start at zero and the LEDs off |
| `Task1.Controller.FillSensorValues` | Task1/main.c:122-127 | the value buffer and ToF hold the tick's readings |
| `Task1.Controller.FillProximityWeights` | Task1/main.c:132-140 | the weight buffer is the classification of the value buffer |
| `Task1.Controller.RunBraitenberg` | Task1/main.c:207-222 | the speed globals get the steering formula over the weight buffer and are written to the motors |
| `Task1.Controller.StrayCriticals` | Task1/main.c:227-279 | fires iff a stray test holds; then issues the stray maneuver and leaves its rotation in the speed globals, which are unchanged otherwise |
| `Task1.Controller.Tick` | Task1/main.c:282-329 | off the start selector: stop (100 ms) and nothing changes; otherwise the commands are the engine's decision, the LEDs follow the readings, and the weights are zeroed except after a stray tick |
| `Task1.StrayResponses` | Task1/main.c:253-274 | left-trio stray gives (325, -325); right-trio stray gives (-325, 325), a left rotation |
| `Task1.StrayRule` | Task1/main.c:227-279 | with thresholds 100/250, each stray branch holds iff exactly one sensor of its trio is weighted above 250 and the opposite trio is clear |
| `Task1.UBlockEscape` | Task1/main.c:306-316 | a U-block tick rotates at full speed (-650, 650) for 500 ms |
| `Task1.SteeringRange` | Task1/main.c:207-222 | clear gives (650, 650), a full right trio gives the left wheel -325, and every steering speed is in [-325, 650] |
| `Task1.LoneLeftReading` | Task1/main.c:229-250 | a lone 300 on sensor 5 gives stop, then a clockwise spin |
| `Task1.SurroundedReading` | Task1/main.c:306-319 | 200 on sensors 0, 1, 5, 6 is no stray but a U-block |
| `CustomBraitenberg.Controller.constructor` | epuck2_webots_project/controllers/custom_braitenberg_controller/custom_braitenberg_controller.c:43-46 | globals start at zero |
| `CustomBraitenberg.Controller.FillSensorValues` | epuck2_webots_project/controllers/custom_braitenberg_controller/custom_braitenberg_controller.c:105-109 | the value buffer holds the step's readings |
| `CustomBraitenberg.Controller.FillProximityWeights` | epuck2_webots_project/controllers/custom_braitenberg_controller/custom_braitenberg_controller.c:114-126 | the weights are the strict "> 75" classification of all eight readings |
| `CustomBraitenberg.Controller.RunBraitenberg` | epuck2_webots_project/controllers/custom_braitenberg_controller/custom_braitenberg_controller.c:139-155 | the speed globals get the steering formula with MAX 6.27/2 |
| `CustomBraitenberg.Controller.StrayCriticals` | epuck2_webots_project/controllers/custom_braitenberg_controller/custom_braitenberg_controller.c:163-212 | fires iff a stray test holds, issuing stop then the half-speed spin away |
| `CustomBraitenberg.Controller.Tick` | epuck2_webots_project/controllers/custom_braitenberg_controller/custom_braitenberg_controller.c:215-256 | the commands are the engine's decision with this file's constants; the weights are zeroed except after a stray step |
| `CustomBraitenberg.StrayRule` | epuck2_webots_project/controllers/custom_braitenberg_controller/custom_braitenberg_controller.c:163-212 | stray iff exactly one sensor of a trio is weighted above 150 with the other trio clear; the response is stop then a (±6.27/4) spin away |
| `CustomBraitenberg.UBlockEscape` | epuck2_webots_project/controllers/custom_braitenberg_controller/custom_braitenberg_controller.c:228-243 | the U-block spin is (-MAX/2, MAX/2) for 500 ms |
| `CustomBraitenberg.CruiseAndSlowdown` | epuck2_webots_project/controllers/custom_braitenberg_controller/custom_braitenberg_controller.c:139-155 | nothing above 75 gives (6.27/2, 6.27/2), and setting a right-trio weight lowers the left wheel |
| `Tracker.Select` | Task2/main.c:278-335 | the corrected ladder: backward iff the override applies; a stop needs tof < T; the search and the nudges need tof > T |
| `Tracker.SelectAsWritten` | Task2/main.c:278-335 | the ladder as written: backward iff the override applies; a stop with tof >= T comes only from sensor 0; the search and the nudges need tof > T |
| `Tracker.LastDirection` | Task2/main.c:187-198 | the counters are one-hot, and (0, 1) iff none of weights 4-7 is set |
| `Tracker.Respond` | Task2/main.c:278-335 | no rule holds its command; the search keeps the memory and every other rule records the last sighting's side |
| `Tracker.Step` | Task2/main.c:278-335 | one unheld command of the corrected ladder; the memory is kept by the search and refreshed by every other rule |
| `Tracker.StepAsWritten` | Task2/main.c:278-335 | the same for the ladder as written |
| `Tracker.WrittenAgreesOutsideGap` | Task2/main.c:301-304 | the two ladders choose differently iff v0 > F, tof >= T and neither the override nor the search applies; there the written ladder stops and the corrected one moves (for MAX not 0); elsewhere the ticks are equal |
| `Tracker.BackwardFirst` | Task2/main.c:278-283 | any of v0, v7, v1, v6 above the backward threshold backs up at MAX/2, before any other rule, and refreshes the memory |
| `Tracker.LostTargetSearch` | Task2/main.c:288-299 | lost target spins left iff left counter > right counter, else right; the counters stay, and from (0, 0) it turns right |
| `Tracker.RearSensorsDoNotSelect` | Task2/main.c:278-335 | readings on sensors 3 and 4 never change which rule is taken |
| `Tracker.MemoryOneHot` | Task2/main.c:187-198 | after every rule but the search the counters are (1, 0) iff one of weights 4-7 is set, else (0, 1) |
| `Tracker.HalfSpeedOnly` | Task2/main.c:278-335 | every ladder command is a stop or a MAX/2 move or spin |
| `Tracker.TurnsTowardsSighting` | Task2/main.c:306-328 | side rules and nudges spin towards the side where the target is seen, under the weight conditions of each rung |
| `Tracker.ClearRing` | Task2/main.c:288-335 | with no proximity sighting: search if the ToF is beyond its threshold, else drive forward |
| `Tracker.MemoryStaysWellFormed` | Task2/main.c:187-198 | from (0, 0), every run of ticks leaves the counters at (0, 0), (1, 0) or (0, 1) |
| `Tracker.ReachedAsWrittenIgnoresTof` | Task2/main.c:301-304 | as written, v0 above the forward threshold stops whatever the ToF reads, while v7 needs tof < T |
| `Tracker.ReachedNeedsTargetInRange` | Task2/main.c:301-304 | the corrected test requires tof < T, is mirror-symmetric, and agrees with the written test whenever tof < T |
| `Task2.Controller.constructor` | Task2/main.c:59-65 | globals start at zero, counters at (0, 0) |
| `Task2.Controller.FillSensorValues` | Task2/main.c:124-129 | the value buffer and the 16-bit ToF hold the tick's readings |
| `Task2.Controller.FillProximityWeights` | Task2/main.c:134-142 | the weights are the classification of the value buffer |
| `Task2.Controller.GetLastSensorInputDirection` | Task2/main.c:187-198 | the counters become (1, 0) iff one of weights 4-7 is set, else (0, 1) |
| `Task2.Controller.RunLadder` | Task2/main.c:278-335 | with the weights classified from the readings, the command and the new counters are one tick of the corrected ladder from the old counters |
| `Task2.Controller.Tick` | Task2/main.c:260-346 | off the start selector: stop (100 ms), nothing changes; otherwise one ladder command and the ladder's memory, LEDs from the readings, and the weights zeroed |
| `Task2.ReachedPrecedenceCounterexample` | Task2/main.c:301-304 | v = (200, 0, …, 0), tof = 200: the ladder as written stops, while the corrected ladder nudges right at 375 |
| `Task2.TrackerSpeeds` | Task2/main.c:278-335 | every command is a stop or a 375 move or spin; the first search from (0, 0) turns right |
| `ObjTracker.Controller.constructor` | epuck2_webots_project/controllers/obj_tracker/obj_tracker.c:44-50 | globals start at zero, counters at (0, 0) |
| `ObjTracker.Controller.GetSensorValues` | epuck2_webots_project/controllers/obj_tracker/obj_tracker.c:112-123 | the value buffer and ToF hold the step's readings |
| `ObjTracker.Controller.FillProximityWeights` | epuck2_webots_project/controllers/obj_tracker/obj_tracker.c:128-139 | the weights are the classification of the value buffer |
| `ObjTracker.Controller.GetLastSensorInputDirection` | epuck2_webots_project/controllers/obj_tracker/obj_tracker.c:184-195 | the counters become (1, 0) iff one of weights 4-7 is set, else (0, 1) |
| `ObjTracker.Controller.Tick` | epuck2_webots_project/controllers/obj_tracker/obj_tracker.c:197-276 | one ladder command with T = 300, the ladder's memory, and the weights zeroed |
| `ObjTracker.ReachedPrecedenceCounterexample` | epuck2_webots_project/controllers/obj_tracker/obj_tracker.c:228-232 | v0 = 200, tof = 350: the ladder as written stops, while the corrected ladder nudges right |
| `ObjTracker.FrontTargetApproach` | epuck2_webots_project/controllers/obj_tracker/obj_tracker.c:228-263 | 200 on both front sensors: the ladder as written stops at any ToF; the corrected ladder stops when tof < 300 and drives forward otherwise; both remember the left side |
| `TestController.Decide` | epuck2_webots_project/controllers/test_controller/test_controller.c:103-133 | one unheld command; with both diagonals weighted it spins in place (wheels opposite and not zero) |
| `TestController.Controller.constructor` | epuck2_webots_project/controllers/test_controller/test_controller.c:46-54 | buffers and speeds start at zero |
| `TestController.Controller.GetSensorValues` | epuck2_webots_project/controllers/test_controller/test_controller.c:71-75 | the value buffer holds the step's readings |
| `TestController.Controller.FindLargestGapCenter` | epuck2_webots_project/controllers/test_controller/test_controller.c:60-66 | each count goes up by one iff its reading is above 90, and the others are kept |
| `TestController.Controller.Tick` | epuck2_webots_project/controllers/test_controller/test_controller.c:98-147 | counts at 0 before and after each step; the command and speed globals are the step decision on 0/1 counts |
| `TestController.DiagonalsSpin` | epuck2_webots_project/controllers/test_controller/test_controller.c:109-121 | weights 1 and 6 set: sensor 3 gives (MAX/10, -MAX/10), else sensor 4 gives (-MAX/10, MAX/10), else (-MAX, MAX) |
| `TestController.SpeedsWithinMax` | epuck2_webots_project/controllers/test_controller/test_controller.c:109-133 | every wheel speed lies in [-MAX, MAX] |
| `TestController.ClearAndBlocked` | epuck2_webots_project/controllers/test_controller/test_controller.c:103-133 | an obstacle-free step commands (MAX, MAX); a full right trio without sensor 6 gives the left wheel -MAX |
| `TestController2.Call` | epuck2_webots_project/controllers/test_controller2/test_controller2.c:142-200 | for any number of loop passes: at least one command; the last is forward at MAX/2 iff the front is clear, else a 50 ms turn; after a turn one counter is 0 |
| `TestController2.Step` | epuck2_webots_project/controllers/test_controller2/test_controller2.c:142-200 | the call with the corrected loop, whose first test reads the watched diagonal as stored for the step: at least one command; the last is forward at MAX/2 iff the front is clear, else a 50 ms turn; after a turn one counter is 0 |
| `TestController2.StepAsWritten` | epuck2_webots_project/controllers/test_controller2/test_controller2.c:142-200 | the call as written: at least one command; with a blocked front and a blocked watched diagonal, the turns before the decision, one 50 ms turn, then as many passes as the bound allows |
| `TestController2.WrittenAgreesUnlessWatchedBlocked` | epuck2_webots_project/controllers/test_controller2/test_controller2.c:169-197 | the corrected and the as-written call are equal when the front is clear or the watched diagonal is stored clear, and then a blocked front gives exactly one 50 ms turn; with it stored blocked, the corrected call makes one pass per blocked re-read up to the first clear one plus one, the call as written one per unit of bound |
| `TestController2.StaleLoopStep` | epuck2_webots_project/controllers/test_controller2/test_controller2.c:174-186 | front 600 on sensors 0 and 1, sensor 1 re-read at 100: two left turns corrected, 1001 as written for a bound of 1000 |
| `TestController2.PassesAreFirstClear` | epuck2_webots_project/controllers/test_controller2/test_controller2.c:183-196 | the loop's passes are the blocked readings before the first clear one, the stored reading being read first |
| `TestController2.TurnAway` | epuck2_webots_project/controllers/test_controller2/test_controller2.c:180-196 | the turn block issues one 50 ms turn and then one per pass of the corrected loop |
| `TestController2.TruncToInt` | epuck2_webots_project/controllers/test_controller2/test_controller2.c:150-151 | the float-to-int conversion truncates toward zero |
| `TestController2.FirstClear` | epuck2_webots_project/controllers/test_controller2/test_controller2.c:183-186 | the number of leading re-reads that are still blocked: all before it above 500, the one at it (if any) at most 500 |
| `TestController2.TurnLoopAsWritten` | epuck2_webots_project/controllers/test_controller2/test_controller2.c:183-186 | the loop as written runs zero times iff the stale reading is at most 500, and otherwise until its bound runs out |
| `TestController2.TurnUntilClear` | epuck2_webots_project/controllers/test_controller2/test_controller2.c:193-196 | the corrected loop, given the stored reading followed by the re-reads, turns once per blocked reading and stops at the first clear one |
| `TestController2.FirstClearIsFirst` | epuck2_webots_project/controllers/test_controller2/test_controller2.c:183-186 | an index whose earlier re-reads are all blocked and which is itself clear (or the end) is FirstClear |
| `TestController2.StaleLoopCounterexample` | epuck2_webots_project/controllers/test_controller2/test_controller2.c:183-186 | sensor 1 stored at 600 and re-read at 100 after the first pass: 1000 passes as written (for a bound of 1000) against 1 corrected |
| `TestController2.Controller.constructor` | epuck2_webots_project/controllers/test_controller2/test_controller2.c:48-54 | readings, sums and counters start at zero |
| `TestController2.Controller.GetSensorValues` | epuck2_webots_project/controllers/test_controller2/test_controller2.c:132-139 | the buffer and ToF hold the step's readings |
| `TestController2.Controller.EscapeTurns` | epuck2_webots_project/controllers/test_controller2/test_controller2.c:153-166 | the opening 2 s left turns (dead end, then too many turns) and the counter reset are those of the step specification |
| `TestController2.Controller.Decide` | epuck2_webots_project/controllers/test_controller2/test_controller2.c:168-197 | over the stored sums: forward with the counters kept, or the turn block of the side with the smaller sum with that side's counter incremented and the other cleared |
| `TestController2.Controller.ObsAvoidance` | epuck2_webots_project/controllers/test_controller2/test_controller2.c:142-200 | the sums are the truncated front pairs; the commands and counters are one call of `TestController2.Step` (the corrected loop) |
| `TestController2.Controller.Tick` | epuck2_webots_project/controllers/test_controller2/test_controller2.c:206-211 | a step reads the sensors, then its commands and counters are one call of `TestController2.Step` (the corrected loop) on them; the sums are the truncated front pairs of the step's readings |
| `TestController2.DeadEndThenTurn` | epuck2_webots_project/controllers/test_controller2/test_controller2.c:154-172 | a dead end gives the 2 s left turn first and always ends in a 50 ms turn, never forward |
| `TestController2.CirclingBreaksOut` | epuck2_webots_project/controllers/test_controller2/test_controller2.c:161-166 | a counter at 5 or more gives the 2 s left turn and leaves both counters at most 1 |
| `TestController2.CountersFollowTurns` | epuck2_webots_project/controllers/test_controller2/test_controller2.c:169-197 | forward keeps the counters; sum_right >= sum_left (a tie included) turns left with (left + 1, 0); otherwise turns right with (0, right + 1) |
| `TestController2.TruncMonotone` | epuck2_webots_project/controllers/test_controller2/test_controller2.c:150-151 | truncation preserves order, so a larger right pair still turns left |
| `TestController2.TruncationTie` | epuck2_webots_project/controllers/test_controller2/test_controller2.c:150-174 | 600.2 + 0 against 0.3 + 600.4 truncates to a tie and turns left, although the left pair reads more |
| `TestController2.StepKeepsCountersOk` | epuck2_webots_project/controllers/test_controller2/test_controller2.c:161-191 | one call keeps both counters in [0, 5] with at least one at 0 |
| `TestController2.CountersStayOk` | epuck2_webots_project/controllers/test_controller2/test_controller2.c:161-197 | from (0, 0), every run of calls keeps the counters in [0, 5] with at least one at 0 |
| `ObsAvoidance.Decide` | epuck2_webots_project/controllers/obs_avoidance/obs_avoidance.c:107-118 | spins left iff sensor 0 or 7 reads above 100, with a 500 ms hold then and none otherwise |
| `ObsAvoidance.Controller.constructor` | epuck2_webots_project/controllers/obs_avoidance/obs_avoidance.c:40 | a zeroed reading buffer |
| `ObsAvoidance.Controller.GetSensorValues` | epuck2_webots_project/controllers/obs_avoidance/obs_avoidance.c:99-105 | the buffer holds the step's readings |
| `ObsAvoidance.Controller.ObsAvoidance` | epuck2_webots_project/controllers/obs_avoidance/obs_avoidance.c:107-118 | front reading above 100 gives (-6.27, 6.27) for 500 ms, else (6.27, 6.27) with no hold; the command is `Decide` on the buffer |
| `ObsAvoidance.OnlyFrontMatters` | epuck2_webots_project/controllers/obs_avoidance/obs_avoidance.c:112 | sensors 1-6 never influence the command |
| `ObsAvoidance.StrictAndLeftOnly` | epuck2_webots_project/controllers/obs_avoidance/obs_avoidance.c:112-117 | front readings of exactly 100 drive forward; the controller never turns right or backs up |

## Left out

- Device bring-up and calls are not modelled: `init`, the motor and LED drivers, the message bus and the Webots `wb_*` API. Motor writes are returned commands, and LED writes are returned booleans.
- The sleep and simulation-step primitives are not modelled. A wait inside a decision becomes its command's `holdMs`. The wait at the end of each loop pass only sets the loop period and is left out (50 ms in Task1 and Task2, 0.1 s in custom_braitenberg_controller and obj_tracker and test_controller2). The endless outer loops are modelled as one tick each.
- The Bluetooth telemetry `send_bt_values` is not modelled. It only formats hardware getters, and in Task1 it passes a double to `%d`. Also left out: `printf` debug output, the empty camera stub `send_camera_feed_bt`, and the stack-guard constant.
- `srand(time(NULL))` in test_controller2 is left out, because `rand` is never called.
- Unused globals are left out: Task2's `left_speed`/`right_speed` and `cam_error`, obj_tracker's speed globals, and test_controller2's `left_counter`/`right_counter`.
- IEEE floating point is not modelled. Readings, speeds and coefficients are reals. The only rounding modelled is the float-to-int truncation of test_controller2's sums.
- `TestController2.TruncToInt`: the `int` overflow of a sum of enormous readings is not modelled, because the source has undefined behaviour there.
- `Leds.GlowLeds`: the firmware reads the sensors again for the LEDs. The model lights the LEDs from the same frame the decision uses.
- `TestController2.TurnLoopAsWritten`: the loop as written never ends once entered. A `fuel` bound stands for the simulation ending, and the contract states the count up to that bound.
- `TestController2.TurnUntilClear`: the corrected loop gets its re-reads of the watched sensor as a finite sequence. If every re-read is blocked, it stops when the sequence ends.
- `Task2.Controller.Tick`, `ObjTracker.Controller.Tick`: these use the corrected "reached" grouping (see Findings). The ladder as written is `Tracker.StepAsWritten`, and `Tracker.WrittenAgreesOutsideGap` says where the two differ.
- `TestController2.Step`, `TestController2.Controller.ObsAvoidance`: these use the corrected turn loop (see Findings), which stops at the first clear reading instead of turning until the simulation ends. The loop as written is `TestController2.TurnLoopAsWritten`, the call as written `TestController2.StepAsWritten`, and `TestController2.WrittenAgreesUnlessWatchedBlocked` says where the two calls differ.
- `TestController2.Controller.Tick`: it promises the corrected call `TestController2.Step`, not the source's step, whose loop never ends once the watched diagonal is stored blocked. The two agree whenever the front is clear or the watched diagonal is stored clear.

## Findings

| source | as written | input that shows it | evidently intended | confidence | as-written member | corrected member |
|---|---|---|---|---|---|---|
| Task2/main.c:301 | `v0 > 150 \|\| v7 > 150 && tof < 150`: `&&` binds tighter, so a close sensor 0 stops the robot whatever the ToF reads | v = (200, 0, 0, 0, 0, 0, 0, 0), tof = 200: stop, although the ToF sees nothing within 150 mm | `(v0 > 150 \|\| v7 > 150) && tof < 150`; this input then nudges right | high, not executed | `Task2.ReachedPrecedenceCounterexample` | `Tracker.Select` |
| epuck2_webots_project/controllers/obj_tracker/obj_tracker.c:228 | the same grouping with T = 300 | v0 = 200, tof = 350: stop | `(v0 > 150 \|\| v7 > 150) && tof < 300` | high, not executed | `ObjTracker.ReachedPrecedenceCounterexample` | `Tracker.Select` |
| epuck2_webots_project/controllers/test_controller2/test_controller2.c:183 | `while (val_proximity[1] > 500)` never reads the sensors again, so once entered it turns until the simulation ends; the same holds at line 193 for sensor 6 | sensor 1 stored at 600 and re-read at 100 after the first pass: the loop as written keeps turning, the corrected loop makes one pass (`TestController2.StaleLoopStep` shows the whole call) | read the watched sensor again on each pass and stop at the first clear reading | high, not executed | `TestController2.TurnLoopAsWritten` | `TestController2.TurnUntilClear` |

The as-written grouping is `Tracker.ReachedAsWritten`, used by
`Tracker.SelectAsWritten` and `Tracker.StepAsWritten`. The corrected one is
`Tracker.TargetReached`, used by `Tracker.Select` and `Tracker.Step`.
`Tracker.ReachedNeedsTargetInRange` proves the intended property of the
corrected test: it needs the target in ToF range.

# Cascaded tendon controller of the soft neck: a verified model

This project models the control core of the soft-neck camera stabilizer.
The platform is a three-tendon parallel joint. Its control loop runs once per
sampling period and does the following:

- it reads pitch and roll from the IMU and flips their sign so that sensor and
  motors turn the same way;
- it forms the orientation errors against a fixed target pose of {0, 0};
- it runs one filtered-derivative controller (FPDBlock) per axis and guards
  each output;
- it maps the two guarded outputs to three tendon velocities (`pr2tendons`);
- for each motor, it runs a PID controller (PIDBlock) on that tendon's
  velocity error, guards the output and sends it as the motor's velocity
  command;
- it writes one CSV line.

The validity guard replaces every controller output for which `std::isnormal`
is false with `0.0`. A side thread (`moveTrunk`) publishes a fixed sequence of
trunk poses into the global `trunkPoss`. The loop only logs that global; it
never tracks it.

Modules, following the program's structure:

- `Doubles` (doubles.dfy): doubles as their `fpclassify` class plus their
  exact real value, `std::isnormal`, and the guard.
- `Kinematics` (kinematics.dfy): the gear ratio `PRADIO / TRADIO`, the
  mapper as a function (`Tendons`) and as an in-place method on a caller's
  array (`Pr2Tendons`), its forward kinematics, and its algebraic properties.
- `Trajectory` (trajectory.dfy): poses, the canned pose schedule and the
  values `trunkPoss` takes.
- `Controllers` (controllers.dfy): a controller block as private state plus
  an update law that the model takes as a parameter.
- `Cascade` (cascade.dfy): one cycle as a pure function (`CycleSpec`) and
  the first n cycles (`Run`), with the properties every cycle keeps.
- `ControlLoop` (control_loop.dfy): the loop as a class. It holds five block
  objects, the constant target pose and the `targetVel` array. Its `Cycle`
  and `RunCycles` methods are proved equal to `CycleSpec` and `Run`.

The model uses these conventions:

- sin(2π/3) = √3/2 is irrational, and Dafny's `real` has no term that
  denotes it. The model therefore takes it as a parameter, `sin120`: the value
  the math library returns. cos(2π/3) = cos(4π/3) = -1/2 and
  sin(4π/3) = -sin(2π/3) are built in exactly. The one fact that needs the
  exact value, `TendonsIsometry`, assumes `ExactSine(sin120)`, i.e.
  `sin120 > 0` and `sin120² = 3/4`.
- The update laws of FPDBlock and PIDBlock are parameters, `Law<S>`. The
  state type `S` holds each block's tuning as well as its memory.
- The inputs are parameters of each cycle (one `Sample`): IMU angles, motor
  velocity reads, elapsed time, and the two separate reads of `trunkPoss`.
  The outputs are results: the three guarded velocity commands and one log
  record.

The loop's errors are taken against the local `targetPose{0, 0}`
(main/soft-robot-trajectory.cpp:142), which is never reassigned. The shared
`trunkPoss` appears only in the log's target columns (lines 293-294). The
model makes `targetPose` a `const` of the loop class and proves that
`trunkPoss` does not influence any controller state or command
(`TrunkPossOnlyLogged`).

`moveTrunk` is declared `bool` but returns `1` (true) on every failure and
`0` (false) on success. The model keeps that convention: `result` is true
exactly when setup failed.

## Model

| member | source | states |
|---|---|---|
| Doubles.ToReal | main/soft-robot-trajectory.cpp:239 | a finite double stands for a real of magnitude at most the largest finite double, and that real is 0 exactly for the two zeros |
| Doubles.IsNormal | main/soft-robot-trajectory.cpp:228 | `std::isnormal` holds exactly when the value is finite with magnitude at least 2^-1022 (false for ±0, subnormals, ±inf, NaN) |
| Doubles.Guard | main/soft-robot-trajectory.cpp:228-231 | the consumed value is the raw output when it is normal and 0.0 otherwise; never NaN, inf or subnormal; its magnitude is 0 or between 2^-1022 and the largest finite double |
| Doubles.GuardIdempotent | main/soft-robot-trajectory.cpp:228-231 | guarding twice equals guarding once |
| Doubles.GuardFixedPoints | main/soft-robot-trajectory.cpp:228-231 | the guard leaves a value unchanged exactly when it is normal or +0.0 |
| Kinematics.GearRatio | main/soft-robot-trajectory.cpp:33 | T = PRADIO / TRADIO = 0.05 / 0.0075 = 20/3, positive (constants at lines 23-24) |
| Kinematics.Tendons | main/soft-robot-trajectory.cpp:31-37 | three velocities; tendon 0 gets pitch·T whatever the roll; the three always sum to zero; tendon 1 minus tendon 2 is 2·roll·T·sin(2π/3); these determine the triple |
| Kinematics.Pr2Tendons | main/soft-robot-trajectory.cpp:31-37 | writes the mapper's triple into vel[0..2] of a caller's vector of length at least 3 and leaves every other element unchanged |
| Kinematics.PitchRollOfTendons | main/soft-robot-trajectory.cpp:34-36 | forward kinematics recovers (pitch, roll) from the mapper's output |
| Kinematics.TendonsOfPitchRoll | main/soft-robot-trajectory.cpp:34-36 | a triple is the mapper's output for its own forward kinematics exactly when it sums to zero: the image is the zero-sum plane |
| Kinematics.TendonsLinear | main/soft-robot-trajectory.cpp:34-36 | each tendon velocity is linear in (pitch, roll) |
| Kinematics.PurePitch | main/soft-robot-trajectory.cpp:34-36 | with roll 0: (pitch·T, -pitch·T/2, -pitch·T/2) |
| Kinematics.PureRoll | main/soft-robot-trajectory.cpp:34-36 | with pitch 0: tendon 0 is 0 and tendons 1, 2 are ±roll·T·sin(2π/3), a symmetric push-pull |
| Kinematics.UnitPitchSample | main/soft-robot-trajectory.cpp:34-36 | pitch 1, roll 0 gives exactly (20/3, -10/3, -10/3) |
| Kinematics.TendonsIsometry | main/soft-robot-trajectory.cpp:35-36 | with the exact sine, the squared norm of the triple is (3/2)·T²·(pitch² + roll²): no cross-axis distortion |
| Trajectory.ScheduleShape | main/soft-robot-trajectory.cpp:102-106 | five poses; the first four are distinct corners (±20, ±12) and the last is home |
| Trajectory.MoveTrunk | main/soft-robot-trajectory.cpp:53-135 | returns true (1) exactly when the network, the device or one of the four interface views is missing, and then publishes nothing; otherwise publishes the five poses in order and returns false (0) |
| Trajectory.TrunkPossHistory | main/soft-robot-trajectory.cpp:26 | trunkPoss starts at {0, 0} before any value is published |
| Trajectory.TrunkPossSettlesHome | main/soft-robot-trajectory.cpp:130-131 | on every path the last value of trunkPoss is {0, 0} |
| Controllers.Block.constructor | main/soft-robot-trajectory.cpp:198-207 | a controller object starts with its given law and initial state |
| Controllers.Block.OutputUpdate | main/soft-robot-trajectory.cpp:227 | one evaluation: the new state and the raw output are what the block's law gives for the old state and the error |
| Cascade.Evaluate | main/soft-robot-trajectory.cpp:227-231 | evaluating a controller then guarding: the state moves by the law, and the output is the raw one if normal, else +0.0 |
| Cascade.CycleSpec | main/soft-robot-trajectory.cpp:218-286 | per cycle: measured angles are sign-flipped; error = target + raw IMU angle; only consumable outputs are handed on; tendon targets are the mapper's and sum to zero; inner error i is target i minus motor i's velocity; each handed-on value (pitchCs, rollCs, each motor command) is the guard of its own controller's raw output on its own error; each controller's state moves by its own law on its own error |
| Cascade.Run | main/soft-robot-trajectory.cpp:215-299 | n iterations give n traces, one per sample, and each keeps the sign flip, the error equations, the consumable outputs and the zero-sum tendon targets of its cycle |
| Cascade.RunSnoc | main/soft-robot-trajectory.cpp:215-299 | one more iteration adds exactly one CycleSpec step, taken from the controller states the earlier iterations left |
| Cascade.RunThreadsState | main/soft-robot-trajectory.cpp:215-299 | cycle k's trace and the states after it are one CycleSpec step from the states after cycle k-1: controller memory carries over and nothing is reset |
| Cascade.Records | main/soft-robot-trajectory.cpp:292-295 | one log line per cycle, in cycle order |
| Cascade.RecordsAppend | main/soft-robot-trajectory.cpp:292-295 | a further cycle appends exactly one line to the log |
| Cascade.RunPrefix | main/soft-robot-trajectory.cpp:215-299 | the first n cycles of a longer run are exactly the run of the first n samples |
| Cascade.HomeErrorsAreRawAngles | main/soft-robot-trajectory.cpp:221-225 | with the target {0, 0} of line 142, every cycle's outer errors equal the raw IMU pitch and roll |
| Cascade.TrunkPossOnlyLogged | main/soft-robot-trajectory.cpp:293-294 | what is read from trunkPoss changes neither the controller states nor the tendon targets nor the commands |
| Cascade.NormalOutputPassesThrough | main/soft-robot-trajectory.cpp:249-256 | motor 1's command is its PID's raw output when that is normal, and 0.0 otherwise |
| ControlLoop.CascadeLoop.constructor | main/soft-robot-trajectory.cpp:142-207 | target pose {0, 0}, a fresh zeroed three-element targetVel, and five distinct fresh controllers in their initial states |
| ControlLoop.CascadeLoop.Cycle | main/soft-robot-trajectory.cpp:218-286 | one iteration in place: the new controller states, targetVel, commands and log line are exactly those of CycleSpec |
| ControlLoop.CascadeLoop.RunCycles | main/soft-robot-trajectory.cpp:215-299 | n iterations in place: the final states, the commands of every cycle and the log are exactly those of Run |

## Left out

- Motor set-up and commands over SocketCAN/CiA402 (`StartNode`, `SwitchOn`, `Setup_Velocity_Mode`, `SetVelocity`, `GetVelocityTP`, `GetVelocity`): hardware I/O. Velocity reads are inputs of `Sample`, and commands are outputs of `Cycle`.
- The interleaving of reads and writes inside a cycle (motor 1 is commanded before motor 2's velocity is read): each read is a field of `Sample`, holding whatever that read returned at its point in the cycle.
- The IMU driver and its 10-second calibration loop (lines 156-166): sensor I/O. The readings are inputs.
- The YARP client in `moveTrunk` and its `positionMove` calls: network plumbing. Only the branch structure and the published poses are modelled.
- The `std::thread` and the unsynchronised writes to `trunkPoss`: concurrency. The two reads of `trunkPoss` for the log are separate inputs, so a torn pair is allowed.
- `SamplingTime`, `std::chrono` and the 8-second dwells: wall-clock timing. Elapsed time is an input, and `RunCycles` covers the first n iterations of `while(1)` rather than an unbounded run.
- CSV formatting with `fprintf` (`%.4f`) and the header line: `Record` holds the real values, not their text.
- The equations and tuning of FPDBlock and PIDBlock (gains at lines 198-207, period 1/50 s): their source is not part of this model, so they are opaque laws.
- IEEE-754 rounding and overflow in `sin`, `cos`, products and subtractions: the arithmetic is exact over `real`. Doubles appear only through the guard's classification, and a normal or subnormal double may carry any real in its range, not only the representable ones. In particular a normal pitchCs above MaxFinite / T makes `pitch * T` (line 34) ±inf in the program, so targetVel and the inner errors become non-finite and the three targets no longer sum to zero; the model's exact reals never show this.
- Kinematics.Tendons: the sine of 2π/3 is a parameter. The contracts hold for any value of it; only `TendonsIsometry` assumes the exact value.
- `tenseTendons` (lines 43-51): never called.
- The shutdown code after `while(1)` (lines 301-309): unreachable.
- `LG0` (line 22): defined but never used.

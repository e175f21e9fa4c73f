/** One cycle of the cascaded controller as a value: sensor readings in,
    guarded motor commands and a telemetry record out, the five controller
    states carried to the next cycle. The imperative loop in module
    ControlLoop is proved to compute exactly this. */
module Cascade {
  import opened Doubles
  import opened Kinematics
  import opened Trajectory
  import opened Controllers

  /** What one cycle reads from outside: the IMU angles, the velocity of each
      motor read for its inner loop (GetVelocityTP), the velocity of each
      motor read again for the log (GetVelocity), the elapsed time, and the
      two separate reads of the shared trunkPoss for the log. */
  datatype Sample = Sample(
    imuPitch: real, imuRoll: real,
    velTP1: real, velTP2: real, velTP3: real,
    logVel1: real, logVel2: real, logVel3: real,
    elapsed: real,
    trunkPitch: real, trunkRoll: real)

  /** The measured velocity that motor i + 1's inner loop compares with. */
  function VelTP(x: Sample, i: nat): real
    requires i < 3
  {
    if i == 0 then x.velTP1 else if i == 1 then x.velTP2 else x.velTP3
  }

  /** One CSV line: Time, TargetAxialTrunk, SensorPitch, TargetFrontalTrunk,
      SensorRoll, VelM1, VelM2, VelM3. */
  datatype Record = Record(
    time: real,
    targetPitch: real, sensedPitch: real,
    targetRoll: real, sensedRoll: real,
    vel1: real, vel2: real, vel3: real)

  /** The private states of fcPitchVelocity, fcRollVelocity and cntrl1..cntrl3. */
  datatype LoopState<F, P> = LoopState(fcPitch: F, fcRoll: F, cntrl1: P, cntrl2: P, cntrl3: P)

  /** Everything one cycle computes, in the order it computes it. */
  datatype CycleTrace = CycleTrace(
    pitch: real, roll: real,              // measured angles after the sign flip
    pitchError: real, rollError: real,    // outer errors
    pitchCs: Float64, rollCs: Float64,    // guarded outer outputs
    targetVel: seq<real>,                 // pr2tendons of the outer outputs
    velErrors: seq<real>,                 // inner errors, motor 1..3
    commands: seq<Float64>,               // guarded inner outputs, sent to motor 1..3
    record: Record)

  datatype Step<F, P> = Step(next: LoopState<F, P>, trace: CycleTrace)

  /** What every cycle promises, whatever the controllers do: the sign
      convention, the errors against the loop's fixed target, only consumable
      values handed on, the tendon targets from the mapper, index-aligned inner
      errors, and a log record whose target columns come from trunkPoss. */
  ghost predicate WellFormedCycle(target: Pose, sin120: real, x: Sample, t: CycleTrace) {
    && t.pitch == -x.imuPitch && t.roll == -x.imuRoll
    && t.pitchError == target.pitch + x.imuPitch
    && t.rollError == target.roll + x.imuRoll
    && Consumable(t.pitchCs) && Consumable(t.rollCs)
    && t.targetVel == Tendons(ToReal(t.pitchCs), ToReal(t.rollCs), sin120)
    && |t.velErrors| == 3
    && (forall i :: 0 <= i < 3 ==> t.velErrors[i] == t.targetVel[i] - VelTP(x, i))
    && |t.commands| == 3
    && (forall i :: 0 <= i < 3 ==> Consumable(t.commands[i]))
    && t.record == Record(x.elapsed, x.trunkPitch, -x.imuPitch, x.trunkRoll, -x.imuRoll,
                          x.logVel1, x.logVel2, x.logVel3)
  }

  /** Evaluate a controller and guard its output. */
  function Evaluate<S>(law: Law<S>, s: S, error: real): (r: (S, Float64))
    ensures Consumable(r.1)
    ensures r.0 == law(s, error).0
    ensures IsNormal(law(s, error).1) ==> r.1 == law(s, error).1
    ensures !IsNormal(law(s, error).1) ==> r.1 == PositiveZero
  {
    var (s', raw) := law(s, error);
    (s', Guard(raw))
  }

  /** One pass of the loop body: IMU read and sign flip, outer errors, outer
      filters and guard, pr2tendons, then for each motor its inner error,
      inner filter and guard; then the log record. */
  function CycleSpec<F, P>(fpd: Law<F>, pid: Law<P>, target: Pose, sin120: real,
                           st: LoopState<F, P>, x: Sample): (r: Step<F, P>)
    ensures WellFormedCycle(target, sin120, x, r.trace)
    // the targets the three inner loops track always sum to zero
    ensures r.trace.targetVel[0] + r.trace.targetVel[1] + r.trace.targetVel[2] == 0.0
    // every value handed on is the guard applied to its own controller's raw output
    ensures r.trace.pitchCs == Guard(fpd(st.fcPitch, r.trace.pitchError).1)
    ensures r.trace.rollCs == Guard(fpd(st.fcRoll, r.trace.rollError).1)
    ensures r.trace.commands[0] == Guard(pid(st.cntrl1, r.trace.velErrors[0]).1)
    ensures r.trace.commands[1] == Guard(pid(st.cntrl2, r.trace.velErrors[1]).1)
    ensures r.trace.commands[2] == Guard(pid(st.cntrl3, r.trace.velErrors[2]).1)
    // each controller's state moves by its own law, fed its own error, and no other
    ensures r.next == LoopState(fpd(st.fcPitch, r.trace.pitchError).0,
                                fpd(st.fcRoll, r.trace.rollError).0,
                                pid(st.cntrl1, r.trace.velErrors[0]).0,
                                pid(st.cntrl2, r.trace.velErrors[1]).0,
                                pid(st.cntrl3, r.trace.velErrors[2]).0)
  {
    var pitch := -x.imuPitch;
    var roll := -x.imuRoll;
    var pitchError := target.pitch - pitch;
    var rollError := target.roll - roll;
    var (fcPitch', pitchCs) := Evaluate(fpd, st.fcPitch, pitchError);
    var (fcRoll', rollCs) := Evaluate(fpd, st.fcRoll, rollError);
    var targetVel := Tendons(ToReal(pitchCs), ToReal(rollCs), sin120);
    var velErrors := [targetVel[0] - x.velTP1, targetVel[1] - x.velTP2, targetVel[2] - x.velTP3];
    var (c1', cS1) := Evaluate(pid, st.cntrl1, velErrors[0]);
    var (c2', cS2) := Evaluate(pid, st.cntrl2, velErrors[1]);
    var (c3', cS3) := Evaluate(pid, st.cntrl3, velErrors[2]);
    Step(LoopState(fcPitch', fcRoll', c1', c2', c3'),
         CycleTrace(pitch, roll, pitchError, rollError, pitchCs, rollCs, targetVel, velErrors,
                    [cS1, cS2, cS3],
                    Record(x.elapsed, x.trunkPitch, pitch, x.trunkRoll, roll,
                           x.logVel1, x.logVel2, x.logVel3)))
  }

  /** The outcome of the first |xs| iterations of the loop: the controller
      states after them and one trace per iteration, in order. */
  datatype RunResult<F, P> = RunResult(final: LoopState<F, P>, traces: seq<CycleTrace>)

  function Run<F, P>(fpd: Law<F>, pid: Law<P>, target: Pose, sin120: real,
                     st: LoopState<F, P>, xs: seq<Sample>): (r: RunResult<F, P>)
    ensures |r.traces| == |xs|
    ensures forall k :: 0 <= k < |xs| ==> WellFormedCycle(target, sin120, xs[k], r.traces[k])
    decreases |xs|
  {
    if xs == [] then RunResult(st, [])
    else
      var before := Run(fpd, pid, target, sin120, st, xs[..|xs| - 1]);
      var step := CycleSpec(fpd, pid, target, sin120, before.final, xs[|xs| - 1]);
      RunResult(step.next, before.traces + [step.trace])
  }

  /** The telemetry file's lines, one per trace, in cycle order. */
  function Records(ts: seq<CycleTrace>): (log: seq<Record>)
    ensures |log| == |ts|
    ensures forall k :: 0 <= k < |ts| ==> log[k] == ts[k].record
  {
    seq(|ts|, k requires 0 <= k < |ts| => ts[k].record)
  }

  /** Logging one more cycle appends one line. */
  lemma RecordsAppend(ts: seq<CycleTrace>, t: CycleTrace)
    ensures Records(ts + [t]) == Records(ts) + [t.record]
  {
  }

  /** A longer run extends a shorter one: the loop never revisits a cycle. */
  lemma {:induction false} RunPrefix<F, P>(fpd: Law<F>, pid: Law<P>, target: Pose, sin120: real,
                                           st: LoopState<F, P>, xs: seq<Sample>, n: nat)
    requires n <= |xs|
    ensures Run(fpd, pid, target, sin120, st, xs).traces[..n]
         == Run(fpd, pid, target, sin120, st, xs[..n]).traces
    decreases |xs|
  {
    if n < |xs| {
      var ys := xs[..|xs| - 1];
      assert ys[..n] == xs[..n];
      RunPrefix(fpd, pid, target, sin120, st, ys, n);
      var before := Run(fpd, pid, target, sin120, st, ys);
      assert Run(fpd, pid, target, sin120, st, xs).traces[..n] == before.traces[..n];
    } else {
      assert xs[..n] == xs;
    }
  }

  /** One more sample adds one CycleSpec step from the states the run left. */
  lemma RunSnoc<F, P>(fpd: Law<F>, pid: Law<P>, target: Pose, sin120: real,
                      st: LoopState<F, P>, zs: seq<Sample>, z: Sample)
    ensures var a := Run(fpd, pid, target, sin120, st, zs);
            var step := CycleSpec(fpd, pid, target, sin120, a.final, z);
            Run(fpd, pid, target, sin120, st, zs + [z]) == RunResult(step.next, a.traces + [step.trace])
  {
    assert (zs + [z])[..|zs|] == zs;
  }

  /** Cycle k starts from the states cycle k - 1 left: its trace and the
      states after it are one CycleSpec step from the run of the first k samples. */
  lemma {:induction false} RunThreadsState<F, P>(fpd: Law<F>, pid: Law<P>, target: Pose, sin120: real,
                                                 st: LoopState<F, P>, xs: seq<Sample>, k: nat)
    requires k < |xs|
    ensures var before := Run(fpd, pid, target, sin120, st, xs[..k]);
            var step := CycleSpec(fpd, pid, target, sin120, before.final, xs[k]);
            && Run(fpd, pid, target, sin120, st, xs).traces[k] == step.trace
            && Run(fpd, pid, target, sin120, st, xs[..k + 1]).final == step.next
  {
    var before := Run(fpd, pid, target, sin120, st, xs[..k]);
    assert xs[..k + 1][..k] == xs[..k];
    RunPrefix(fpd, pid, target, sin120, st, xs, k + 1);
    assert Run(fpd, pid, target, sin120, st, xs).traces[k]
        == Run(fpd, pid, target, sin120, st, xs).traces[..k + 1][k];
  }

  /** The loop's target is the local targetPose {0, 0}: its outer errors are
      then the raw IMU pitch and roll, cycle after cycle. */
  lemma HomeErrorsAreRawAngles<F, P>(fpd: Law<F>, pid: Law<P>, sin120: real,
                                     st: LoopState<F, P>, xs: seq<Sample>, k: nat)
    requires k < |xs|
    ensures Run(fpd, pid, Home, sin120, st, xs).traces[k].pitchError == xs[k].imuPitch
    ensures Run(fpd, pid, Home, sin120, st, xs).traces[k].rollError == xs[k].imuRoll
  {
  }

  /** trunkPoss reaches only the log: two samples that differ only in what
      was read from it give the same controller states, tendon targets and
      motor commands. */
  lemma TrunkPossOnlyLogged<F, P>(fpd: Law<F>, pid: Law<P>, target: Pose, sin120: real,
                                  st: LoopState<F, P>, x: Sample, y: Sample)
    requires y == x.(trunkPitch := y.trunkPitch, trunkRoll := y.trunkRoll)
    ensures CycleSpec(fpd, pid, target, sin120, st, x).next
         == CycleSpec(fpd, pid, target, sin120, st, y).next
    ensures CycleSpec(fpd, pid, target, sin120, st, x).trace.commands
         == CycleSpec(fpd, pid, target, sin120, st, y).trace.commands
    ensures CycleSpec(fpd, pid, target, sin120, st, x).trace.targetVel
         == CycleSpec(fpd, pid, target, sin120, st, y).trace.targetVel
  {
  }

  /** A valid raw output passes unchanged to the motor: when motor 1's PID
      output is normal, that exact value is the command. */
  lemma NormalOutputPassesThrough<F, P>(fpd: Law<F>, pid: Law<P>, target: Pose, sin120: real,
                                        st: LoopState<F, P>, x: Sample)
    ensures var t := CycleSpec(fpd, pid, target, sin120, st, x).trace;
            var raw := pid(st.cntrl1, t.velErrors[0]).1;
            t.commands[0] == (if IsNormal(raw) then raw else PositiveZero)
  {
  }
}

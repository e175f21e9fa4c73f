/** The body of `main`'s control loop, imperatively: five controller objects,
    the fixed target pose and the tendon-velocity vector, updated in place
    each cycle. Cycle is proved to do exactly what Cascade.CycleSpec says,
    and RunCycles to do what Cascade.Run says for the first |xs| cycles. */
module ControlLoop {
  import opened Doubles
  import opened Kinematics
  import opened Trajectory
  import opened Controllers
  import opened Cascade

  class CascadeLoop<F, P> {
    /** fcPitchVelocity and fcRollVelocity (FPDBlock). */
    const fcPitch: Block<F>
    const fcRoll: Block<F>
    /** cntrl1 .. cntrl3 (PIDBlock), one per motor. */
    const cntrl1: Block<P>
    const cntrl2: Block<P>
    const cntrl3: Block<P>
    /** The update laws of FPDBlock and PIDBlock. */
    const fpd: Law<F>
    const pid: Law<P>
    /** The local targetPose: set once, never reassigned. */
    const targetPose: Pose
    /** The vector targetVel(3) that pr2tendons writes into. */
    const targetVel: array<real>
    /** sin(2π/3) as the math library gives it. */
    const sin120: real

    ghost predicate Valid()
      reads this
    {
      && targetVel.Length == 3
      && fcPitch.law == fpd && fcRoll.law == fpd
      && cntrl1.law == pid && cntrl2.law == pid && cntrl3.law == pid
      && fcPitch != fcRoll
      && cntrl1 != cntrl2 && cntrl1 != cntrl3 && cntrl2 != cntrl3
      && fcPitch as object != cntrl1 && fcPitch as object != cntrl2 && fcPitch as object != cntrl3
      && fcRoll as object != cntrl1 && fcRoll as object != cntrl2 && fcRoll as object != cntrl3
    }

    /** The five controller states. */
    function State(): LoopState<F, P>
      reads this, fcPitch, fcRoll, cntrl1, cntrl2, cntrl3
    {
      LoopState(fcPitch.state, fcRoll.state, cntrl1.state, cntrl2.state, cntrl3.state)
    }

    /** The set-up part of main: the vector of three zeros, the target pose
        {0, 0} and the five controllers with their initial states. */
    constructor (fpd: Law<F>, pid: Law<P>, pitch0: F, roll0: F, c10: P, c20: P, c30: P, sin120: real)
      ensures Valid()
      ensures this.fpd == fpd && this.pid == pid && this.sin120 == sin120
      ensures targetPose == Home
      ensures fresh(targetVel) && targetVel[..] == [0.0, 0.0, 0.0]
      ensures fresh(fcPitch) && fresh(fcRoll) && fresh(cntrl1) && fresh(cntrl2) && fresh(cntrl3)
      ensures State() == LoopState(pitch0, roll0, c10, c20, c30)
    {
      this.fpd := fpd;
      this.pid := pid;
      this.sin120 := sin120;
      targetPose := Home;
      targetVel := new real[3](_ => 0.0);
      fcPitch := new Block(fpd, pitch0);
      fcRoll := new Block(fpd, roll0);
      cntrl1 := new Block(pid, c10);
      cntrl2 := new Block(pid, c20);
      cntrl3 := new Block(pid, c30);
      new;
      assert targetVel[..] == [targetVel[0], targetVel[1], targetVel[2]];
    }

    /** One iteration of `while(1)`: returns the three SetVelocity commands
        and the line written to the log. */
    method Cycle(x: Sample) returns (commands: seq<Float64>, record: Record)
      requires Valid()
      modifies fcPitch, fcRoll, cntrl1, cntrl2, cntrl3, targetVel
      ensures var step := CycleSpec(fpd, pid, targetPose, sin120, old(State()), x);
              && State() == step.next
              && targetVel[..] == step.trace.targetVel
              && commands == step.trace.commands
              && record == step.trace.record
    {
      ghost var st := State();
      ghost var spec := CycleSpec(fpd, pid, targetPose, sin120, st, x);

      var pitch, roll := x.imuPitch, x.imuRoll;
      pitch := -pitch;
      roll := -roll;

      var pitchError := targetPose.pitch - pitch;
      var rollError := targetPose.roll - roll;

      var pitchCs := fcPitch.OutputUpdate(pitchError);
      if !IsNormal(pitchCs) {
        pitchCs := PositiveZero;
      }
      assert (fcPitch.state, pitchCs) == Evaluate(fpd, st.fcPitch, pitchError);
      var rollCs := fcRoll.OutputUpdate(rollError);
      if !IsNormal(rollCs) {
        rollCs := PositiveZero;
      }
      assert (fcRoll.state, rollCs) == Evaluate(fpd, st.fcRoll, rollError);
      assert pitchCs == spec.trace.pitchCs && rollCs == spec.trace.rollCs;

      Pr2Tendons(ToReal(pitchCs), ToReal(rollCs), sin120, targetVel);
      assert targetVel[..] == targetVel[..3] == spec.trace.targetVel;

      var velError1 := targetVel[0] - x.velTP1;
      var cS1 := cntrl1.OutputUpdate(velError1);
      if !IsNormal(cS1) {
        cS1 := PositiveZero;
      }
      assert (cntrl1.state, cS1) == Evaluate(pid, st.cntrl1, velError1);

      var velError2 := targetVel[1] - x.velTP2;
      var cS2 := cntrl2.OutputUpdate(velError2);
      if !IsNormal(cS2) {
        cS2 := PositiveZero;
      }
      assert (cntrl2.state, cS2) == Evaluate(pid, st.cntrl2, velError2);

      var velError3 := targetVel[2] - x.velTP3;
      var cS3 := cntrl3.OutputUpdate(velError3);
      if !IsNormal(cS3) {
        cS3 := PositiveZero;
      }
      assert (cntrl3.state, cS3) == Evaluate(pid, st.cntrl3, velError3);

      commands := [cS1, cS2, cS3];
      record := Record(x.elapsed, x.trunkPitch, pitch, x.trunkRoll, roll,
                       x.logVel1, x.logVel2, x.logVel3);
    }

    /** The first |xs| iterations of the loop, one sample each: the commands
        sent each cycle and the log written, in cycle order. */
    method RunCycles(xs: seq<Sample>) returns (sent: seq<seq<Float64>>, log: seq<Record>)
      requires Valid()
      modifies fcPitch, fcRoll, cntrl1, cntrl2, cntrl3, targetVel
      ensures var run := Run(fpd, pid, targetPose, sin120, old(State()), xs);
              && State() == run.final
              && log == Records(run.traces)
              && |sent| == |xs|
              && forall k :: 0 <= k < |xs| ==> sent[k] == run.traces[k].commands
    {
      ghost var start := State();
      ghost var run: RunResult<F, P> := RunResult(start, []);
      sent, log := [], [];
      for i := 0 to |xs|
        invariant run == Run(fpd, pid, targetPose, sin120, start, xs[..i])
        invariant State() == run.final
        invariant log == Records(run.traces)
        invariant |sent| == i == |run.traces|
        invariant forall k :: 0 <= k < i ==> sent[k] == run.traces[k].commands
      {
        var commands, record := Cycle(xs[i]);
        ghost var step := CycleSpec(fpd, pid, targetPose, sin120, run.final, xs[i]);
        assert xs[..i + 1][..i] == xs[..i];
        RecordsAppend(run.traces, step.trace);
        run := RunResult(step.next, run.traces + [step.trace]);
        sent := sent + [commands];
        log := log + [record];
      }
      assert xs[..|xs|] == xs;
    }
  }
}

/** Orientation poses and the canned pose sequence of the trunk side task
    (`moveTrunk`), kept as data: the network device calls and the 8-second
    dwells are not modelled, only which values the global `trunkPoss` takes
    and in what order. */
module Trajectory {
  import opened Doubles

  /** An orientation {pitch, roll}, in degrees. */
  datatype Pose = Pose(pitch: real, roll: real)

  /** pose_h, and the initial value of the global trunkPoss. */
  const Home: Pose := Pose(0.0, 0.0)

  /** pose_1 .. pose_4, then pose_h, in the order they are published. */
  function Schedule(): seq<Pose> {
    [Pose(20.0, -12.0), Pose(20.0, 12.0), Pose(-20.0, -12.0), Pose(-20.0, 12.0), Home]
  }

  /** The sequence visits each corner of the box [-20, 20] x [-12, 12]
      exactly once, then returns home. */
  lemma ScheduleShape()
    ensures |Schedule()| == 5 && Schedule()[4] == Home
    ensures forall i :: 0 <= i < 4 ==> Abs(Schedule()[i].pitch) == 20.0 && Abs(Schedule()[i].roll) == 12.0
    ensures forall i, j :: 0 <= i < j < 5 ==> Schedule()[i] != Schedule()[j]
  {
  }

  /** What one run of moveTrunk did: its return value and the values it
      published to trunkPoss, in order. */
  datatype TrunkRun = TrunkRun(result: bool, published: seq<Pose>)

  /** moveTrunk: each failed setup step returns 1 (true, in a bool function)
      before anything is published; a full run publishes the schedule and
      returns 0 (false). All four interface views are requested, whatever
      the earlier ones gave (`ok &= ...`). */
  function MoveTrunk(networkUp: bool, deviceValid: bool,
                     viewPos: bool, viewVel: bool, viewEnc: bool, viewMode: bool): (r: TrunkRun)
    ensures r.result <==> !(networkUp && deviceValid && viewPos && viewVel && viewEnc && viewMode)
    ensures r.result ==> r.published == []
    ensures !r.result ==> r.published == Schedule()
  {
    if !networkUp then TrunkRun(true, [])
    else if !deviceValid then TrunkRun(true, [])
    else
      var ok := viewPos && viewVel && viewEnc && viewMode;
      if !ok then TrunkRun(true, [])
      else TrunkRun(false, Schedule())
  }

  /** Every value trunkPoss holds over the process lifetime, in order. */
  function TrunkPossHistory(run: TrunkRun): (h: seq<Pose>)
    ensures |h| >= 1 && h[0] == Home
  {
    [Home] + run.published
  }

  /** Whatever path moveTrunk takes, trunkPoss ends at home and keeps that
      value for as long as the control loop runs. */
  lemma TrunkPossSettlesHome(networkUp: bool, deviceValid: bool,
                              viewPos: bool, viewVel: bool, viewEnc: bool, viewMode: bool)
    ensures var h := TrunkPossHistory(MoveTrunk(networkUp, deviceValid, viewPos, viewVel, viewEnc, viewMode));
            h[|h| - 1] == Home
  {
  }
}

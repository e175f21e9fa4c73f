/** Inverse kinematics of the three-tendon platform (`pr2tendons`): a pitch
    rate and a roll rate become three tendon velocities, the tendons sitting
    at 0, 120 and 240 degrees around a platform of radius PlatformRadius,
    each wound on a drum of radius DrumRadius.

    cos(2π/3) = cos(4π/3) = -1/2 and sin(4π/3) = -sin(2π/3) are exact here.
    sin(2π/3) = √3/2 is irrational, so it is the parameter `sin120`: the value
    the math library returns. Facts that need its exact value assume
    ExactSine(sin120). */
module Kinematics {

  /** PRADIO: radius of the platform, in metres. */
  const PlatformRadius: real := 0.05
  /** TRADIO: radius of a tendon drum, in metres. */
  const DrumRadius: real := 0.0075

  /** cos(2π/3) and cos(4π/3). */
  const Cos120: real := -0.5
  const Cos240: real := -0.5

  /** T = PRADIO / TRADIO, the gear ratio applied to every tendon. */
  function GearRatio(): (t: real)
    ensures t == 20.0 / 3.0
    ensures t > 0.0
  {
    PlatformRadius / DrumRadius
  }

  /** The exact value of sin(2π/3): positive, with square 3/4. */
  ghost predicate ExactSine(s: real) {
    s > 0.0 && s * s == 0.75
  }

  /** The three tendon velocities for a pitch rate and a roll rate.
      The three contracts below determine the result uniquely. */
  function Tendons(pitch: real, roll: real, sin120: real): (v: seq<real>)
    ensures |v| == 3
    // roll never contributes to tendon 0
    ensures v[0] == pitch * GearRatio()
    // the three velocities always cancel: no net cable length change
    ensures v[0] + v[1] + v[2] == 0.0
    // roll is a push-pull on tendons 1 and 2
    ensures v[1] - v[2] == 2.0 * roll * GearRatio() * sin120
  {
    var t := GearRatio();
    [ pitch * t,
      roll * t * sin120 + pitch * t * Cos120,
      roll * t * (-sin120) + pitch * t * Cos240 ]
  }

  /** `pr2tendons`: writes vel[0], vel[1], vel[2] of the caller's vector and
      nothing else. */
  method Pr2Tendons(pitch: real, roll: real, sin120: real, vel: array<real>)
    requires vel.Length >= 3
    modifies vel
    ensures vel[..3] == Tendons(pitch, roll, sin120)
    ensures vel[3..] == old(vel[3..])
  {
    var t := PlatformRadius / DrumRadius;
    assert t == GearRatio();
    vel[0] := pitch * t;
    vel[1] := roll * t * sin120 + pitch * t * Cos120;
    vel[2] := roll * t * (-sin120) + pitch * t * Cos240;
    assert vel[..3] == [vel[0], vel[1], vel[2]];
    var v := Tendons(pitch, roll, sin120);
    assert vel[0] == v[0];
    assert vel[1] == v[1];
    assert vel[2] == v[2];
  }

  /** Forward kinematics: the pitch and roll rates that a tendon triple encodes. */
  function PitchRoll(v: seq<real>, sin120: real): (pr: (real, real))
    requires |v| == 3 && sin120 > 0.0
  {
    (v[0] / GearRatio(), (v[1] - v[2]) / (2.0 * GearRatio() * sin120))
  }

  /** Forward kinematics undoes the mapper. */
  lemma {:induction false} PitchRollOfTendons(pitch: real, roll: real, sin120: real)
    requires sin120 > 0.0
    ensures PitchRoll(Tendons(pitch, roll, sin120), sin120) == (pitch, roll)
  {
    var v := Tendons(pitch, roll, sin120);
    var k := 2.0 * GearRatio() * sin120;
    assert k > 0.0;
    assert v[1] - v[2] == roll * k;
    assert (roll * k) / k == roll;
    assert v[0] / GearRatio() == pitch;
  }

  /** Every zero-sum triple is reached, and only from its own forward
      kinematics: the mapper's image is exactly the zero-sum plane. */
  lemma {:induction false} TendonsOfPitchRoll(v: seq<real>, sin120: real)
    requires |v| == 3 && sin120 > 0.0
    ensures v[0] + v[1] + v[2] == 0.0 <==>
            Tendons(PitchRoll(v, sin120).0, PitchRoll(v, sin120).1, sin120) == v
  {
    var (p, r) := PitchRoll(v, sin120);
    var w := Tendons(p, r, sin120);
    var k := 2.0 * GearRatio() * sin120;
    assert k > 0.0;
    assert r * k == v[1] - v[2];
    assert w[1] - w[2] == v[1] - v[2];
    if v[0] + v[1] + v[2] == 0.0 {
      assert w[0] == v[0];
      assert w[1] + w[2] == v[1] + v[2];
      assert w[1] == v[1] && w[2] == v[2];
      assert w == v;
    }
  }

  /** The map is linear in (pitch, roll). */
  lemma TendonsLinear(a: real, b: real, p1: real, r1: real, p2: real, r2: real, sin120: real, i: nat)
    requires i < 3
    ensures Tendons(a * p1 + b * p2, a * r1 + b * r2, sin120)[i]
         == a * Tendons(p1, r1, sin120)[i] + b * Tendons(p2, r2, sin120)[i]
  {
  }

  /** A pure pitch command drives tendon 0 and splits equally, opposite, over 1 and 2. */
  lemma PurePitch(pitch: real, sin120: real)
    ensures Tendons(pitch, 0.0, sin120)
         == [pitch * GearRatio(), -pitch * GearRatio() / 2.0, -pitch * GearRatio() / 2.0]
  {
  }

  /** A pure roll command leaves tendon 0 still and pushes 1 against 2. */
  lemma PureRoll(roll: real, sin120: real)
    ensures Tendons(0.0, roll, sin120)
         == [0.0, roll * GearRatio() * sin120, -(roll * GearRatio() * sin120)]
  {
  }

  /** pitch = 1, roll = 0 gives (20/3, -10/3, -10/3), about (6.667, -3.333, -3.333). */
  lemma UnitPitchSample(sin120: real)
    ensures Tendons(1.0, 0.0, sin120) == [20.0 / 3.0, -10.0 / 3.0, -10.0 / 3.0]
  {
  }

  function SumOfSquares(v: seq<real>): real
    requires |v| == 3
  {
    v[0] * v[0] + v[1] * v[1] + v[2] * v[2]
  }

  /** With the exact sine the map scales lengths uniformly:
      |v|^2 = (3/2) T^2 (pitch^2 + roll^2), so no direction is favoured. */
  lemma TendonsIsometry(pitch: real, roll: real, sin120: real)
    requires ExactSine(sin120)
    ensures SumOfSquares(Tendons(pitch, roll, sin120))
         == 1.5 * GearRatio() * GearRatio() * (pitch * pitch + roll * roll)
  {
  }
}

/** The pure helpers of the ISAM wrapper: the next-pose prediction, the motion
    noise, the landmark position predicted from one bearing-range reading and
    the odometry pose handed to the between-factor. Trigonometry and angle
    wrapping are kept abstract: they are fields of a Trig value. */
module Geometry {

  /** The transcendental operations the helpers rely on, left uninterpreted:
      numpy's cos and sin, wrap_angle (from data_generation.utils, which is not
      part of this model), the angle a gtsam Rot2 built from a raw angle
      reports, and the constant pi. */
  datatype Trig = Trig(cos: real -> real, sin: real -> real, wrap: real -> real,
                       rot2: real -> real, pi: real)

  /** A gtsam Pose2: a position and the heading its Rot2 reports. */
  datatype Pose = Pose(x: real, y: real, theta: real)

  /** A gtsam Point2. */
  datatype Point = Point(x: real, y: real)

  /** A rotate-translate-rotate odometry command (drot1, dtran, drot2). */
  datatype Motion = Motion(drot1: real, dtran: real, drot2: real)

  /** The four motion-noise coefficients (a1, a2, a3, a4). */
  datatype Alphas = Alphas(a1: real, a2: real, a3: real, a4: real)

  /** The three per-axis motion noise terms: first rotation, translation,
      second rotation. */
  datatype Cov3 = Cov3(rot1: real, trans: real, rot2: real)

  /** gtsam.Pose2(x, y, theta): the heading is stored as a Rot2, so the pose
      reports the Rot2's angle for theta. */
  function MakePose2(t: Trig, x: real, y: real, theta: real): Pose
  {
    Pose(x, y, t.rot2(theta))
  }

  function Square(v: real): (r: real)
    ensures r >= 0.0
  {
    v * v
  }

  ghost predicate NonNegativeAlphas(a: Alphas)
  {
    a.a1 >= 0.0 && a.a2 >= 0.0 && a.a3 >= 0.0 && a.a4 >= 0.0
  }

  /** The constructor keeps the squares of the coefficients it is given. */
  function SquaredAlphas(raw: Alphas): (r: Alphas)
    ensures NonNegativeAlphas(r)
  {
    Alphas(Square(raw.a1), Square(raw.a2), Square(raw.a3), Square(raw.a4))
  }

  /** Rotate the heading by drot1, move dtran along the new heading, rotate
      by drot2, and wrap the heading. */
  function MotionPrediction(t: Trig, state: Pose, motion: Motion): (r: Pose)
    ensures motion.dtran == 0.0 ==> r.x == state.x && r.y == state.y
    ensures r.theta == t.rot2(t.wrap(state.theta + motion.drot1 + motion.drot2))
  {
    var heading := state.theta + motion.drot1;
    var x := state.x + motion.dtran * t.cos(heading);
    var y := state.y + motion.dtran * t.sin(heading);
    MakePose2(t, x, y, t.wrap(heading + motion.drot2))
  }

  /** A motion with no rotation and no translation leaves a pose whose heading
      is already in normal form unchanged. */
  lemma ZeroMotionIsIdentity(t: Trig, state: Pose)
    requires t.rot2(t.wrap(state.theta)) == state.theta
    ensures MotionPrediction(t, state, Motion(0.0, 0.0, 0.0)) == state
  {
  }

  /** The per-axis motion noise: a1*drot1^2 + a2*dtran^2,
      a3*dtran^2 + a4*(drot1^2 + drot2^2), a1*drot2^2 + a2*dtran^2. */
  function MotionNoiseCovariance(motion: Motion, alphas: Alphas): (r: Cov3)
    ensures NonNegativeAlphas(alphas) ==> r.rot1 >= 0.0 && r.trans >= 0.0 && r.rot2 >= 0.0
    ensures motion == Motion(0.0, 0.0, 0.0) ==> r == Cov3(0.0, 0.0, 0.0)
  {
    var r1 := Square(motion.drot1);
    var tr := Square(motion.dtran);
    var r2 := Square(motion.drot2);
    Cov3(alphas.a1 * r1 + alphas.a2 * tr,
         alphas.a3 * tr + alphas.a4 * (r1 + r2),
         alphas.a1 * r2 + alphas.a2 * tr)
  }

  /** Exchanging the two rotations exchanges the first and last noise terms
      and keeps the translational one. */
  lemma CovarianceSwapsWithRotations(motion: Motion, alphas: Alphas)
    ensures var c := MotionNoiseCovariance(motion, alphas);
            MotionNoiseCovariance(Motion(motion.drot2, motion.dtran, motion.drot1), alphas)
            == Cov3(c.rot2, c.trans, c.rot1)
  {
  }

  /** The landmark seen at the given distance and bearing from a pose: the
      pose position plus distance along the wrapped absolute angle. */
  function LandmarkPosition(t: Trig, state: Pose, distance: real, bearing: real): (r: Point)
    ensures distance == 0.0 ==> r == Point(state.x, state.y)
  {
    var angle := t.wrap(state.theta + bearing);
    Point(distance * t.cos(angle) + state.x, distance * t.sin(angle) + state.y)
  }

  /** Where cos and sin of the observation angle satisfy the Pythagorean
      identity, the predicted landmark lies exactly at the measured range. */
  lemma LandmarkAtMeasuredRange(t: Trig, state: Pose, distance: real, bearing: real)
    requires var a := t.wrap(state.theta + bearing);
             t.cos(a) * t.cos(a) + t.sin(a) * t.sin(a) == 1.0
    ensures var p := LandmarkPosition(t, state, distance, bearing);
            (p.x - state.x) * (p.x - state.x) + (p.y - state.y) * (p.y - state.y)
            == distance * distance
  {
    var a := t.wrap(state.theta + bearing);
    var c, s := t.cos(a), t.sin(a);
    var p := LandmarkPosition(t, state, distance, bearing);
    assert p.x - state.x == distance * c;
    assert p.y - state.y == distance * s;
    calc {
      (distance * c) * (distance * c) + (distance * s) * (distance * s);
      distance * distance * (c * c + s * s);
      distance * distance;
    }
  }

  /** The relative pose submitted with the between-factor: a translation of
      dtran along drot1 + drot2 (not along drot1, as in the prediction) and a
      rotation by the wrapped drot1 + drot2. It is the prediction from the
      origin of the motion whose first rotation is drot1 + drot2. */
  function MotionGtsamFormat(t: Trig, motion: Motion): (r: Pose)
    ensures r == MotionPrediction(t, Pose(0.0, 0.0, 0.0),
                                  Motion(motion.drot1 + motion.drot2, motion.dtran, 0.0))
    ensures motion.dtran == 0.0 ==> r.x == 0.0 && r.y == 0.0
  {
    var theta := motion.drot1 + motion.drot2;
    MakePose2(t, motion.dtran * t.cos(theta), motion.dtran * t.sin(theta), t.wrap(theta))
  }

  /** The odometry pose agrees with the prediction from the origin exactly
      when there is no second rotation to account for. */
  lemma OdometryMatchesPredictionWithoutSecondRotation(t: Trig, motion: Motion)
    requires motion.drot2 == 0.0
    ensures MotionGtsamFormat(t, motion) == MotionPrediction(t, Pose(0.0, 0.0, 0.0), motion)
  {
  }
}

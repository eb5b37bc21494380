# IsamSolver, modelled in Dafny

`IsamSolver` (visual_gtsam/_old_gtsam/isam_solver.py) is a thin wrapper around
GTSAM's incremental smoother ISAM2 for a planar robot that sees landmarks.
The constructor puts a prior on pose 0 into a pending factor graph and its
initial estimate into a pending `Values` container. Each `update(motion,
measurement)` then does the following:

- it predicts the next pose from the latest estimate of the current one;
- it adds a between-factor from pose `pose_num` to `pose_num + 1`;
- for every bearing-range reading it adds a bearing-range factor from the
  old pose to a fresh landmark id (counting up from 1000), with the
  landmark's predicted position as its initial estimate;
- it hands the increment to ISAM2, empties both buffers, and reads back
  the estimate;
- it advances the pose counter and rebuilds the flat coordinate rows.

The model has three modules:

- `Geometry` (geometry.dfy): the four static helpers, which are motion
  prediction, motion noise, landmark position and odometry format.
  `cos`, `sin`, `wrap_angle`, the angle a `Rot2` reports and pi are
  uninterpreted: they are fields of a `Trig` value that every helper takes.
- `Gtsam` (gtsam.dfy): the library objects the wrapper touches, namely
  `Values` as a map from keys to poses or points, the three factor kinds,
  diagonal noise models, and ISAM2 as an abstract store. The ISAM2
  contract is an assumption about the library. Each update absorbs the
  submitted factors and initial estimates and refuses a key it already
  holds or a factor over an unknown key. Its estimate then holds exactly
  the keys submitted so far, each of the kind it was submitted as. The
  estimated numbers are left open.
- `Session` (isam_solver.dfy): the `IsamSolver` class (its fields,
  constructor, `update` and `_convert_to_np_format`) as imperative Dafny,
  with the loops kept as loops, and the specification functions it is
  proved against.
  - `WithStepFactors` and `WithStep` give the factors and estimates one
    step builds onto the pending ones.
  - The class invariant `Valid` describes the session before the first
    update and after every update.
  - Lemmas about these carry the properties: the layout of a step's
    factors, the keys and contents of its estimates, key freshness,
    consecutive landmark ids, and the keys the store holds afterwards.

`Update` requires `Valid()` and re-establishes it. It states:

- the counters advance by exactly 1 and `|measurement|`;
- the landmark ids handed out are the next consecutive ones, and they are
  exactly the landmark keys the store gains, so no id is reused;
- both buffers are empty afterwards;
- ISAM2 received the pending factors followed by the step's factors; on
  the first update these start with the prior;
- ISAM2 received the pending estimates with the step's estimates added;
- every key of the step is new;
- the store then holds exactly the poses `0 .. pose_num` and the landmark
  ids handed out so far;
- the rows are read from the new estimate.

Because `Valid()` holds, every `atPose2`/`atPoint2` that the wrapper
does (lines 103, 106, 119, 134) reads a key that is present and holds
the right kind.

## Model

| member | source | states |
|---|---|---|
| Geometry.SquaredAlphas | visual_gtsam/_old_gtsam/isam_solver.py:18 | the coefficients kept are the squares of those given, hence all non-negative |
| Geometry.MotionPrediction | visual_gtsam/_old_gtsam/isam_solver.py:37-55 | with no translation the position is unchanged; the heading is the Rot2 angle of wrap(theta + drot1 + drot2) |
| Geometry.ZeroMotionIsIdentity | visual_gtsam/_old_gtsam/isam_solver.py:37-55 | a zero motion returns the pose unchanged when its heading is already in normal form |
| Geometry.MotionNoiseCovariance | visual_gtsam/_old_gtsam/isam_solver.py:58-65 | with non-negative coefficients every noise term is non-negative; a zero motion gives the zero vector |
| Geometry.CovarianceSwapsWithRotations | visual_gtsam/_old_gtsam/isam_solver.py:63-65 | swapping drot1 and drot2 swaps the first and third terms and keeps the middle one |
| Geometry.LandmarkPosition | visual_gtsam/_old_gtsam/isam_solver.py:68-78 | at distance zero the landmark is the pose position |
| Geometry.LandmarkAtMeasuredRange | visual_gtsam/_old_gtsam/isam_solver.py:72-76 | where cos and sin of the wrapped angle satisfy cos^2 + sin^2 = 1, the landmark lies at exactly the measured distance from the pose |
| Geometry.MotionGtsamFormat | visual_gtsam/_old_gtsam/isam_solver.py:81-94 | the odometry pose is the prediction from the origin for the motion whose first rotation is drot1 + drot2, so it translates along drot1 + drot2; with no translation it sits at the origin |
| Geometry.OdometryMatchesPredictionWithoutSecondRotation | visual_gtsam/_old_gtsam/isam_solver.py:81-94 | with drot2 = 0 the odometry pose equals the prediction from the origin |
| Gtsam.Insert | visual_gtsam/_old_gtsam/isam_solver.py:138 | refuses a key already present; otherwise adds exactly that key with that value and keeps every other entry |
| Gtsam.AtPose2 | visual_gtsam/_old_gtsam/isam_solver.py:103 | defined only for a present pose entry, and returns that pose |
| Gtsam.AtPoint2 | visual_gtsam/_old_gtsam/isam_solver.py:106 | defined only for a present point entry, and returns that point |
| Gtsam.Isam2.constructor | visual_gtsam/_old_gtsam/isam_solver.py:28-31 | the parameters given and an empty store |
| Gtsam.Isam2.Update | visual_gtsam/_old_gtsam/isam_solver.py:166 | assumed library contract: refuses held keys and factors over unknown keys; appends the factors and estimates; the estimate then holds the old keys and the new ones, each of its submitted kind |
| Gtsam.Isam2.CalculateEstimate | visual_gtsam/_old_gtsam/isam_solver.py:174 | returns the current estimate |
| Session.ObservationNoise | visual_gtsam/_old_gtsam/isam_solver.py:15-16 | two sigmas, squared bearing sigma in radians then squared range sigma over 100, both non-negative |
| Session.MotionNoise | visual_gtsam/_old_gtsam/isam_solver.py:117 | three sigmas, non-negative when the coefficients are |
| Session.StepKeysFresh | visual_gtsam/_old_gtsam/isam_solver.py:122-139 | while pose_num + 1 < 1000, no key of a step is already held, and held keys plus step keys are the held keys of the next step |
| Session.WithLandmarkFactors | visual_gtsam/_old_gtsam/isam_solver.py:126-133 | appends exactly one factor per measurement |
| Session.WithLandmarkFactorsShape | visual_gtsam/_old_gtsam/isam_solver.py:126-133 | the pending factors stay in front; the i-th new factor joins the OLD pose to landmark o+i with the i-th reading |
| Session.WithLandmarksShape | visual_gtsam/_old_gtsam/isam_solver.py:126-139 | adds exactly the ids o .. o+n-1, each holding the landmark predicted from the previous pose and its reading, and keeps every other entry |
| Session.WithLandmarksOmits | visual_gtsam/_old_gtsam/isam_solver.py:129-138 | a key neither pending nor newly handed out is not inserted |
| Session.StepFactorsShape | visual_gtsam/_old_gtsam/isam_solver.py:116-133 | a step appends exactly one between-factor from pose_num to pose_num+1 and then one bearing-range factor per measurement, all attached to the old pose |
| Session.StepValuesShape | visual_gtsam/_old_gtsam/isam_solver.py:119-138 | a step adds exactly the key pose_num+1, holding the predicted pose, and the new landmark ids, each holding its predicted landmark; other entries are kept |
| Session.GrowingIncrementKeepsOldPose | visual_gtsam/_old_gtsam/isam_solver.py:113-134 | while the step extends the container result denotes on the first call, the entry under pose_num stays the one the step began with |
| Session.StepValuesKeys | visual_gtsam/_old_gtsam/isam_solver.py:124-138 | the step's keys are the pending keys plus the step keys; the new pose key holds a pose and every new landmark id a point |
| Session.LandmarkIds | visual_gtsam/_old_gtsam/isam_solver.py:129-139 | the ids one update hands out from o on increase strictly and stay within o .. o+n-1, so none repeats |
| Session.WithIssuedIdsAppends | visual_gtsam/_old_gtsam/isam_solver.py:129-139 | handing out one id per measurement from o on appends exactly the consecutive ids o .. o+n-1 to those already handed out |
| Session.IssuedAfterStep | visual_gtsam/_old_gtsam/isam_solver.py:20-139 | when every id from 1000 up to observation_num has been handed out, one more update leaves exactly the ids from 1000 up to the new observation_num handed out |
| Session.NewLandmarkKeys | visual_gtsam/_old_gtsam/isam_solver.py:129-174 | the landmark keys an update adds to the store are exactly the ids it hands out |
| Session.SubmissionIsFresh | visual_gtsam/_old_gtsam/isam_solver.py:33-166 | the submitted increment (the prior's pose-0 estimate on the first update, then the step) shares no key with the store, is well typed, and completes the keys of the next step |
| Session.AbsorbedIncrement | visual_gtsam/_old_gtsam/isam_solver.py:166-174 | after absorbing such an increment the store holds exactly the expected keys with their kinds, every pose and landmark the rows read is present, and every factor is over held keys |
| Session.StepFactorsWithin | visual_gtsam/_old_gtsam/isam_solver.py:122-133 | a step's factors only join the old pose, the new pose and the step's landmark ids |
| Session.IsamSolver.Valid | visual_gtsam/_old_gtsam/isam_solver.py:113-134 | the invariant guarantees that the pose a step predicts from is present and is a pose |
| Session.IsamSolver.constructor | visual_gtsam/_old_gtsam/isam_solver.py:10-34 | the fixed noise models and squared coefficients, counters 0 and 1000, rows [[]], the prior on pose 0 pending with its initial estimate, an empty ISAM2 with threshold 1e-4 and skip 1, and the invariant |
| Session.IsamSolver.ConvertToNpFormat | visual_gtsam/_old_gtsam/isam_solver.py:96-109 | one row per pose 0 .. pose_num-1 and one per landmark id 1000 .. observation_num-1, in id order, each the x, y of that entry of result |
| Session.IsamSolver.AddMeasurement | visual_gtsam/_old_gtsam/isam_solver.py:127-139 | one bearing-range factor from the old pose to the next free id, that landmark predicted from result's pose, the id recorded as handed out, and the id counter up by one |
| Session.IsamSolver.AddMeasurements | visual_gtsam/_old_gtsam/isam_solver.py:126-139 | the loop appends the landmark factors and inserts the landmark estimates of all measurements, hands out one id per measurement, and the id counter rises by their number |
| Session.IsamSolver.AddStep | visual_gtsam/_old_gtsam/isam_solver.py:113-139 | the pending graph and estimations become the step built onto them, predicted from the latest pose; result denotes the pending estimations on the first call |
| Session.IsamSolver.SubmitIncrement | visual_gtsam/_old_gtsam/isam_solver.py:166-174 | ISAM2 absorbs the pending graph and estimations, both buffers are emptied, and result is the new estimate |
| Session.IsamSolver.AdvanceStep | visual_gtsam/_old_gtsam/isam_solver.py:111-177 | after submission and the pose counter increment the store holds exactly poses 0 .. pose_num and the landmarks handed out, well typed, with every factor over held keys |
| Session.IsamSolver.IssuedIdsAreDistinct | visual_gtsam/_old_gtsam/isam_solver.py:20-139 | in every reachable state the ids handed out so far increase strictly from 1000, so none is handed out twice, and after the first update they are exactly the landmark keys of the store |
| Session.IsamSolver.Update | visual_gtsam/_old_gtsam/isam_solver.py:111-178 | keeps the invariant; counters up by 1 and by the number of measurements; the ids handed out are the next consecutive ones, and they are exactly the landmark keys the store gains; buffers empty; ISAM2 got the pending factors followed by the step's factors, starting with the prior on the first call, and the pending estimates with the step's added; every step key is new; the rows match the new estimate |

## Left out

- ISAM2's numerics: the estimated poses and points are left open (the body of `Gtsam.Isam2.Update` keeps the initial estimates, one behaviour its contract admits); relinearisation and the factorisation are not modelled.
- Floating point: all arithmetic is over exact reals. `cos`, `sin`, `np.deg2rad`'s pi, `wrap_angle` (from data_generation.utils, which is not part of this model) and the normalisation of a `Rot2` angle are uninterpreted fields of `Geometry.Trig`.
- The noise models are kept as the sigma vectors handed to `noiseModel_Diagonal.Sigmas`; what gtsam does with them is not modelled.
- Session.IsamSolver.AddStep: on the first call `self.result = self.estimations` makes both names denote one `gtsam.Values`. The model copies the value instead. The step reads `result` only under `pose_num`, and `Session.GrowingIncrementKeepsOldPose` shows that entry is what was pending throughout the step, so no read can tell the two apart.
- Session.IsamSolver.Update: requires `pose_num + 1 < 1000`. The source does not check this. The bound is sufficient, not necessary. Pose keys and landmark ids collide as soon as one pose key and one landmark id coincide, whichever came first. Then the key is refused by ISAM2's update (line 166), or by the insert at line 138 when both keys are new in the same step.
- The measurement matrix is modelled as a sequence of (distance, bearing) rows; columns beyond the first two are never read.
- `np.array` shapes: `states_new` and `observation_new` are sequences of two-element rows, and the initial `np.array([[]])` is `[[]]`.
- The `print` calls (lines 160 and 171) are I/O and are left out; the commented-out association and optimiser blocks (lines 141-155 and 162-164) are dead code.
- `landmark_indexes` (line 21) is set but read only in the dead block, and `self.beta` (line 17) is only stored.
- visual_gtsam/dataset/dataset.py (downloads, file and JSON loading, a timing loop over classes whose code is not shown) and setup.py (packaging) are not part of this model.

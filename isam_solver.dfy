/** The session bookkeeping of IsamSolver: the pose and landmark counters, the
    pending increment (graph and estimations) that each update fills and then
    hands to ISAM2, the factors and keys each step creates, and the flat
    coordinate rows read back after every step. */
module Session {
  import opened Geometry
  import opened Gtsam

  /** The first landmark id; pose ids count up from 0 below it. */
  const FirstLandmarkId: int := 1000

  /** One row of the measurement matrix: the distance (column 0) and the
      bearing (column 1). */
  datatype Measurement = Measurement(distance: real, bearing: real)

  /** The observation noise parameters: beta[0], divided by 100 for the range
      sigma, and beta[1], a bearing sigma in degrees. */
  datatype Beta = Beta(range: real, bearingDegrees: real)

  function DegToRad(t: Trig, degrees: real): real
  {
    degrees * t.pi / 180.0
  }

  /** The bearing-range noise: squared bearing sigma in radians and squared
      range sigma over 100, passed to gtsam as sigmas. */
  function ObservationNoise(t: Trig, beta: Beta): (r: Noise)
    ensures |r.sigmas| == 2 && r.sigmas[0] >= 0.0 && r.sigmas[1] >= 0.0
  {
    Diagonal([Square(DegToRad(t, beta.bearingDegrees)), Square(beta.range / 100.0)])
  }

  /** The between-factor noise: the motion covariance, in the order first
      rotation, translation, second rotation, passed to gtsam as sigmas. */
  function MotionNoise(motion: Motion, alphas: Alphas): (r: Noise)
    ensures |r.sigmas| == 3
    ensures NonNegativeAlphas(alphas) ==> forall i :: 0 <= i < 3 ==> r.sigmas[i] >= 0.0
  {
    var c := MotionNoiseCovariance(motion, alphas);
    Diagonal([c.rot1, c.trans, c.rot2])
  }

  function PoseRow(p: Pose): seq<real>
  {
    [p.x, p.y]
  }

  function PointRow(p: Point): seq<real>
  {
    [p.x, p.y]
  }

  /** The keys the solver holds when poses 0 .. poses-1 exist and the
      landmark ids below obs have been handed out. */
  predicate IsStoreKey(k: int, poses: nat, obs: int)
  {
    0 <= k < poses || FirstLandmarkId <= k < obs
  }

  /** The keys one update inserts: the new pose p+1 and the n landmark ids
      from o on. */
  predicate IsStepKey(k: int, p: nat, o: int, n: nat)
  {
    k == p + 1 || o <= k < o + n
  }

  /** While pose ids stay below the first landmark id, the keys of a step are
      disjoint from those already held, and together they form the store of
      the next step. */
  lemma StepKeysFresh(p: nat, o: int, n: nat)
    requires p + 1 < FirstLandmarkId <= o
    ensures forall k :: IsStepKey(k, p, o, n) ==> !IsStoreKey(k, p + 1, o)
    ensures forall k :: IsStoreKey(k, p + 2, o + n) <==> IsStoreKey(k, p + 1, o) || IsStepKey(k, p, o, n)
  {
    forall k ensures IsStoreKey(k, p + 2, o + n) <==> IsStoreKey(k, p + 1, o) || IsStepKey(k, p, o, n) {
    }
  }

  /** The graph after the bearing-range factors of the first n measurements
      of a step are appended to pending. */
  function WithLandmarkFactors(t: Trig, noise: Noise, pending: seq<Factor>, p: nat, o: int,
                               ms: seq<Measurement>, n: nat): (r: seq<Factor>)
    requires n <= |ms|
    ensures |r| == |pending| + n
  {
    if n == 0 then pending
    else
      WithLandmarkFactors(t, noise, pending, p, o, ms, n - 1)
        + [BearingRangeFactor(p, o + n - 1, t.rot2(ms[n - 1].bearing), ms[n - 1].distance, noise)]
  }

  /** Appending keeps pending as a prefix, and the i-th appended factor
      joins the OLD pose p to landmark o+i and carries the i-th reading. */
  lemma {:induction false} WithLandmarkFactorsShape(t: Trig, noise: Noise, pending: seq<Factor>, p: nat, o: int,
                                                    ms: seq<Measurement>, n: nat)
    requires n <= |ms|
    ensures var r := WithLandmarkFactors(t, noise, pending, p, o, ms, n);
            && r[..|pending|] == pending
            && forall i :: 0 <= i < n ==>
                 r[|pending| + i] == BearingRangeFactor(p, o + i, t.rot2(ms[i].bearing), ms[i].distance, noise)
  {
    if n > 0 {
      WithLandmarkFactorsShape(t, noise, pending, p, o, ms, n - 1);
      var r' := WithLandmarkFactors(t, noise, pending, p, o, ms, n - 1);
      assert WithLandmarkFactors(t, noise, pending, p, o, ms, n)[..|pending|] == r'[..|pending|];
    }
  }

  /** The values after the landmarks of the first n measurements of a step,
      each predicted from the previous pose, are inserted into pending. */
  function WithLandmarks(t: Trig, pending: Values, o: int, previous: Pose, ms: seq<Measurement>, n: nat): Values
    requires n <= |ms|
  {
    if n == 0 then pending
    else
      WithLandmarks(t, pending, o, previous, ms, n - 1)
        [o + n - 1 := PointValue(LandmarkPosition(t, previous, ms[n - 1].distance, t.rot2(ms[n - 1].bearing)))]
  }

  /** Inserting the landmarks adds exactly the ids o .. o+n-1, the one under
      o+i predicted from the previous pose and the i-th reading, and leaves
      every other entry of pending as it was. */
  lemma {:induction false} WithLandmarksShape(t: Trig, pending: Values, o: int, previous: Pose,
                                              ms: seq<Measurement>, n: nat)
    requires n <= |ms|
    ensures var r := WithLandmarks(t, pending, o, previous, ms, n);
            && (forall k :: k in r <==> k in pending || o <= k < o + n)
            && (forall k :: o <= k < o + n ==>
                  r[k] == PointValue(LandmarkPosition(t, previous, ms[k - o].distance, t.rot2(ms[k - o].bearing))))
            && (forall k :: k in pending && !(o <= k < o + n) ==> r[k] == pending[k])
  {
    if n > 0 {
      WithLandmarksShape(t, pending, o, previous, ms, n - 1);
    }
  }

  /** A key that is neither pending nor one of the new landmark ids is not
      inserted. */
  lemma {:induction false} WithLandmarksOmits(t: Trig, pending: Values, o: int, previous: Pose,
                                              ms: seq<Measurement>, n: nat, k: int)
    requires n <= |ms| && k !in pending && !(o <= k < o + n)
    ensures k !in WithLandmarks(t, pending, o, previous, ms, n)
  {
    if n > 0 {
      WithLandmarksOmits(t, pending, o, previous, ms, n - 1, k);
    }
  }

  /** The graph one update builds onto the pending one: the between-factor
      from the old pose p to the new pose p+1, then one bearing-range factor
      per measurement. */
  function WithStepFactors(t: Trig, alphas: Alphas, noise: Noise, pending: seq<Factor>, p: nat, o: int,
                           motion: Motion, ms: seq<Measurement>): seq<Factor>
  {
    WithLandmarkFactors(t, noise, pending + [BetweenFactor(p, p + 1, MotionGtsamFormat(t, motion), MotionNoise(motion, alphas))],
                        p, o, ms, |ms|)
  }

  /** The estimations one update builds onto the pending ones: the pose
      predicted from the previous pose under p+1, then one landmark per
      measurement. */
  function WithStep(t: Trig, pending: Values, p: nat, o: int, previous: Pose,
                    motion: Motion, ms: seq<Measurement>): Values
  {
    WithLandmarks(t, pending[p + 1 := PoseValue(MotionPrediction(t, previous, motion))], o, previous, ms, |ms|)
  }

  /** A step keeps the pending factors in front, then adds the between-factor
      from the old pose p to the new pose p+1, then for the i-th measurement
      a bearing-range factor that joins the OLD pose p to landmark o+i and
      carries that reading. */
  lemma StepFactorsShape(t: Trig, alphas: Alphas, noise: Noise, pending: seq<Factor>, p: nat, o: int,
                         motion: Motion, ms: seq<Measurement>)
    ensures var r := WithStepFactors(t, alphas, noise, pending, p, o, motion, ms);
            && |r| == |pending| + 1 + |ms|
            && r[..|pending|] == pending
            && r[|pending|] == BetweenFactor(p, p + 1, MotionGtsamFormat(t, motion), MotionNoise(motion, alphas))
            && forall i :: 0 <= i < |ms| ==>
                 r[|pending| + 1 + i] == BearingRangeFactor(p, o + i, t.rot2(ms[i].bearing), ms[i].distance, noise)
  {
    var front := pending + [BetweenFactor(p, p + 1, MotionGtsamFormat(t, motion), MotionNoise(motion, alphas))];
    WithLandmarkFactorsShape(t, noise, front, p, o, ms, |ms|);
    var r := WithStepFactors(t, alphas, noise, pending, p, o, motion, ms);
    assert r[..|pending|] == r[..|front|][..|pending|];
  }

  /** A step adds exactly the new pose key p+1 and the landmark ids
      o .. o+n-1 to the pending keys: under p+1 the pose predicted from the
      previous pose, under o+i the landmark predicted from the previous pose
      and the i-th reading; every other pending entry stays as it was. */
  lemma StepValuesShape(t: Trig, pending: Values, p: nat, o: int, previous: Pose,
                        motion: Motion, ms: seq<Measurement>)
    requires p + 1 < o
    ensures var r := WithStep(t, pending, p, o, previous, motion, ms);
            && (forall k :: k in r <==> k in pending || IsStepKey(k, p, o, |ms|))
            && r[p + 1] == PoseValue(MotionPrediction(t, previous, motion))
            && (forall k :: o <= k < o + |ms| ==>
                  r[k] == PointValue(LandmarkPosition(t, previous, ms[k - o].distance, t.rot2(ms[k - o].bearing))))
            && (forall k :: k in pending && !IsStepKey(k, p, o, |ms|) ==> r[k] == pending[k])
  {
    WithLandmarksShape(t, pending[p + 1 := PoseValue(MotionPrediction(t, previous, motion))], o, previous, ms, |ms|);
  }

  /** On the first update result denotes the pending estimations
      themselves, which the step then goes on extending. Partway through the
      step, after the predicted pose and the first n landmarks, the entry
      under the old pose key p is still the one that was pending, so reading
      it from the growing container gives the same pose as reading it from
      the container as it stood when the step began. */
  lemma {:induction false} GrowingIncrementKeepsOldPose(t: Trig, pending: Values, p: nat, o: int, previous: Pose,
                                                        motion: Motion, ms: seq<Measurement>, n: nat)
    requires n <= |ms| && p + 1 < o && p in pending
    ensures var r := WithLandmarks(t, pending[p + 1 := PoseValue(MotionPrediction(t, previous, motion))],
                                   o, previous, ms, n);
            p in r && r[p] == pending[p]
  {
    WithLandmarksShape(t, pending[p + 1 := PoseValue(MotionPrediction(t, previous, motion))], o, previous, ms, n);
  }

  /** The keys and kinds of a step: the pending keys and the step keys, the
      new pose p+1 a pose and every new landmark id a point. */
  lemma StepValuesKeys(t: Trig, pending: Values, p: nat, o: int, previous: Pose,
                       motion: Motion, ms: seq<Measurement>)
    requires p + 1 < o
    ensures var r := WithStep(t, pending, p, o, previous, motion, ms);
            && (forall k :: k in r <==> k in pending || IsStepKey(k, p, o, |ms|))
            && (forall k :: IsStepKey(k, p, o, |ms|) ==> k in r && (r[k].PoseValue? <==> k == p + 1))
            && (forall k :: k in pending && !IsStepKey(k, p, o, |ms|) ==> k in r && r[k] == pending[k])
  {
    StepValuesShape(t, pending, p, o, previous, motion, ms);
  }

  /** Every key below the first landmark id holds a pose, every other key a
      point. */
  ghost predicate WellTyped(values: Values)
  {
    forall k :: k in values ==> (values[k].PoseValue? <==> k < FirstLandmarkId)
  }

  /** The flat rows: one [x, y] row per pose 0 .. poseNum-1 and one per
      landmark id 1000 .. obsNum-1, in id order. */
  ghost predicate RowsMatch(states: seq<seq<real>>, landmarks: seq<seq<real>>,
                            values: Values, poseNum: nat, obsNum: int)
  {
    && |states| == poseNum
    && (forall i :: 0 <= i < |states| ==>
          i in values && values[i].PoseValue? && states[i] == PoseRow(values[i].pose))
    && |landmarks| == (if obsNum < FirstLandmarkId then 0 else obsNum - FirstLandmarkId)
    && (forall j :: 0 <= j < |landmarks| ==>
          FirstLandmarkId + j in values && values[FirstLandmarkId + j].PointValue?
          && landmarks[j] == PointRow(values[FirstLandmarkId + j].point))
  }

  /** The landmark ids one update hands out, starting at o. */
  function LandmarkIds(o: int, n: nat): (r: seq<int>)
    ensures forall i, j :: 0 <= i < j < |r| ==> o <= r[i] < r[j] < o + n
  {
    seq(n, i => o + i)
  }

  /** The record of handed-out ids after the loop has handed out n more,
      from o on, one id per measurement. */
  function WithIssuedIds(pending: seq<int>, o: int, n: nat): seq<int>
  {
    if n == 0 then pending else WithIssuedIds(pending, o, n - 1) + [o + n - 1]
  }

  /** Handing out the ids one at a time appends exactly the consecutive
      ids o .. o+n-1. */
  lemma {:induction false} WithIssuedIdsAppends(pending: seq<int>, o: int, n: nat)
    ensures WithIssuedIds(pending, o, n) == pending + LandmarkIds(o, n)
  {
    if n > 0 {
      WithIssuedIdsAppends(pending, o, n - 1);
      var r := pending + LandmarkIds(o, n);
      assert r == pending + LandmarkIds(o, n - 1) + [o + n - 1] by {
        assert LandmarkIds(o, n) == LandmarkIds(o, n - 1) + [o + n - 1];
      }
    }
  }

  /** When every id from the first landmark id up to o has been handed out,
      one more update leaves exactly the ids up to o+n handed out. */
  lemma IssuedAfterStep(before: seq<int>, o: int, n: nat)
    requires FirstLandmarkId <= o && before == LandmarkIds(FirstLandmarkId, o - FirstLandmarkId)
    ensures WithIssuedIds(before, o, n) == before + LandmarkIds(o, n)
    ensures WithIssuedIds(before, o, n) == LandmarkIds(FirstLandmarkId, o + n - FirstLandmarkId)
  {
    WithIssuedIdsAppends(before, o, n);
    var r := before + LandmarkIds(o, n);
    assert forall i :: 0 <= i < |r| ==> r[i] == FirstLandmarkId + i;
  }

  /** The landmark keys an update adds to the store are exactly the ids it
      hands out. */
  lemma NewLandmarkKeys(store: Values, next: Values, p: nat, o: int, n: nat)
    requires p + 1 < FirstLandmarkId <= o
    requires p == 0 ==> store == map[] && o == FirstLandmarkId
    requires p > 0 ==> forall k :: k in store <==> IsStoreKey(k, p + 1, o)
    requires forall k :: k in next <==> IsStoreKey(k, p + 2, o + n)
    ensures forall k :: FirstLandmarkId <= k && k in next && k !in store <==> k in LandmarkIds(o, n)
  {
    forall k | FirstLandmarkId <= k && k in next && k !in store ensures k in LandmarkIds(o, n) {
      assert IsStoreKey(k, p + 2, o + n) && !IsStoreKey(k, p + 1, o);
      assert LandmarkIds(o, n)[k - o] == k;
    }
  }

  /** The increment of one update is what was pending (the prior's
      estimate of pose 0 on the first update, nothing afterwards) with the
      step built onto it. None of its keys is held yet, it is well typed, and
      once absorbed the store holds exactly the keys of the next step. */
  lemma SubmissionIsFresh(store: Values, pending: Values, submitted: Values, p: nat, o: int, n: nat)
    requires p + 1 < FirstLandmarkId <= o
    requires p == 0 ==> o == FirstLandmarkId && store == map[]
                        && (forall k :: k in pending <==> k == 0) && pending[0].PoseValue?
    requires p > 0 ==> pending == map[] && forall k :: k in store <==> IsStoreKey(k, p + 1, o)
    requires forall k :: k in submitted <==> k in pending || IsStepKey(k, p, o, n)
    requires forall k :: IsStepKey(k, p, o, n) ==> k in submitted && (submitted[k].PoseValue? <==> k == p + 1)
    requires forall k :: k in pending && !IsStepKey(k, p, o, n) ==> k in submitted && submitted[k] == pending[k]
    ensures submitted.Keys !! store.Keys
    ensures forall k :: k in store || k in submitted <==> IsStoreKey(k, p + 2, o + n)
    ensures WellTyped(submitted)
  {
    StepKeysFresh(p, o, n);
    forall k ensures k in store || k in submitted <==> IsStoreKey(k, p + 2, o + n) {
      if p == 0 {
        assert k in pending <==> k == 0;
      }
    }
    forall k | k in submitted ensures submitted[k].PoseValue? <==> k < FirstLandmarkId {
      if !IsStepKey(k, p, o, n) {
        assert k in pending;
      }
    }
  }

  /** What ISAM2 holds once it absorbs an increment whose keys complete the
      poses below poses and the landmark ids below obs, each key keeping the
      kind it was submitted as: exactly those keys, of the right kinds, and
      every factor over keys it holds. */
  lemma AbsorbedIncrement(store: Values, factors: seq<Factor>, submitted: Values,
                          submittedFactors: seq<Factor>, next: Values, poses: nat, obs: int)
    requires poses <= FirstLandmarkId
    requires WellTyped(store) && WellTyped(submitted)
    requires FactorsWithin(factors, store.Keys)
    requires FactorsWithin(submittedFactors, store.Keys + submitted.Keys)
    requires forall k :: k in store || k in submitted <==> IsStoreKey(k, poses, obs)
    requires forall k :: k in next <==> k in store || k in submitted
    requires forall k :: k in store ==> SameKind(next[k], store[k])
    requires forall k :: k in submitted ==> SameKind(next[k], submitted[k])
    ensures forall k :: k in next <==> IsStoreKey(k, poses, obs)
    ensures WellTyped(next)
    ensures FactorsWithin(factors + submittedFactors, next.Keys)
    ensures forall i :: 0 <= i < poses ==> i in next && next[i].PoseValue?
    ensures forall j :: FirstLandmarkId <= j < obs ==> j in next && next[j].PointValue?
  {
    assert forall k :: k in next.Keys <==> k in store.Keys + submitted.Keys;
    assert next.Keys == store.Keys + submitted.Keys;
    FactorsWithinGrow(factors, submittedFactors, store.Keys, next.Keys);
    forall i | 0 <= i < poses ensures i in next && next[i].PoseValue? {
      assert IsStoreKey(i, poses, obs);
    }
    forall j | FirstLandmarkId <= j < obs ensures j in next && next[j].PointValue? {
      assert IsStoreKey(j, poses, obs);
    }
  }

  /** The factors of a step only join the old pose, the new pose and the
      step's landmark ids. */
  lemma StepFactorsWithin(t: Trig, alphas: Alphas, noise: Noise, pending: seq<Factor>, p: nat, o: int,
                          motion: Motion, ms: seq<Measurement>, keys: set<int>)
    requires FactorsWithin(pending, keys)
    requires p in keys && p + 1 in keys
    requires forall k :: o <= k < o + |ms| ==> k in keys
    ensures FactorsWithin(WithStepFactors(t, alphas, noise, pending, p, o, motion, ms), keys)
  {
    var r := WithStepFactors(t, alphas, noise, pending, p, o, motion, ms);
    StepFactorsShape(t, alphas, noise, pending, p, o, motion, ms);
    forall i | 0 <= i < |r| ensures FactorKeys(r[i]) <= keys {
      if i < |pending| {
        assert r[i] == r[..|pending|][i] == pending[i];
      } else if i == |pending| {
        assert FactorKeys(r[i]) == {p, p + 1};
      } else {
        var j := i - |pending| - 1;
        assert 0 <= j < |ms|;
        assert r[i] == BearingRangeFactor(p, o + j, t.rot2(ms[j].bearing), ms[j].distance, noise);
        assert FactorKeys(r[i]) == {p, o + j};
      }
    }
  }

  lemma FactorsWithinGrow(oldFactors: seq<Factor>, newFactors: seq<Factor>, small: set<int>, large: set<int>)
    requires small <= large
    requires FactorsWithin(oldFactors, small) && FactorsWithin(newFactors, large)
    ensures FactorsWithin(oldFactors + newFactors, large)
  {
    var all := oldFactors + newFactors;
    forall i | 0 <= i < |all| ensures FactorKeys(all[i]) <= large {
      if i < |oldFactors| {
        assert all[i] == oldFactors[i];
      } else {
        assert all[i] == newFactors[i - |oldFactors|];
      }
    }
  }

  /** The wrapper object. The noise models, the coefficients and the ISAM2
      instance are fixed by the constructor; the counters, the pending
      increment, the latest estimate and the rows change with every update.
      The two gtsam.Values containers are held as map values. */
  class IsamSolver {
    const trig: Trig
    const initialPose: Pose
    const priorNoise: Noise
    const observationNoise: Noise
    const beta: Beta
    const alphas: Alphas
    const slam: Isam2

    var poseNum: nat
    var observationNum: int
    var statesNew: seq<seq<real>>
    var observationNew: seq<seq<real>>
    /** The pending increment, submitted with the next update. */
    var graph: seq<Factor>
    var estimations: Values
    var result: Values
    /** The landmark ids handed out so far, in the order they were handed
        out. */
    ghost var issued: seq<int>

    /** Before the first update the pending increment holds the prior on pose
        0 and its initial estimate, and the solver holds nothing. Afterwards
        the increment is empty, the solver holds poses 0 .. poseNum and the
        landmarks handed out so far, result is its latest estimate, and the
        rows are read from it. */
    ghost predicate Valid()
      reads this, slam
      ensures Valid() ==> CanPredict()
    {
      && poseNum < FirstLandmarkId <= observationNum
      && issued == LandmarkIds(FirstLandmarkId, observationNum - FirstLandmarkId)
      && NonNegativeAlphas(alphas)
      && (poseNum == 0 ==>
            && observationNum == FirstLandmarkId
            && graph == [PriorFactor(0, initialPose, priorNoise)]
            && estimations == map[0 := PoseValue(initialPose)]
            && slam.factors == [] && slam.estimate == map[]
            && statesNew == [[]] && observationNew == [[]])
      && (poseNum > 0 ==>
            && graph == [] && estimations == map[]
            && (forall k :: k in slam.estimate <==> IsStoreKey(k, poseNum + 1, observationNum))
            && WellTyped(slam.estimate)
            && FactorsWithin(slam.factors, slam.estimate.Keys)
            && result == slam.estimate
            && RowsMatch(statesNew, observationNew, result, poseNum, observationNum))
    }

    /** The values a step predicts from: before the first update result is
        made to denote the pending estimations. */
    ghost function PredictionSource(): Values
      reads this
    {
      if poseNum == 0 then estimations else result
    }

    ghost predicate CanPredict()
      reads this
    {
      poseNum in PredictionSource() && PredictionSource()[poseNum].PoseValue?
    }

    /** The estimate of the latest pose that the next update predicts from:
        before the first update the initial estimate of pose 0, afterwards
        the solver's estimate of pose poseNum. */
    ghost function LatestPose(): Pose
      reads this
      requires CanPredict()
    {
      AtPose2(PredictionSource(), poseNum)
    }

    constructor (t: Trig, initialState: Pose, covariance: real, rawAlphas: Alphas, beta: Beta)
      ensures Valid()
      ensures trig == t && initialPose == MakePose2(t, initialState.x, initialState.y, initialState.theta)
      ensures priorNoise == Diagonal([covariance, covariance, covariance])
      ensures observationNoise == ObservationNoise(t, beta) && this.beta == beta
      ensures alphas == SquaredAlphas(rawAlphas)
      ensures poseNum == 0 && observationNum == FirstLandmarkId
      ensures statesNew == [[]] && observationNew == [[]]
      ensures graph == [PriorFactor(0, initialPose, priorNoise)]
      ensures estimations == map[0 := PoseValue(initialPose)] && result == map[]
      ensures issued == []
      ensures slam.factors == [] && slam.initials == map[] && slam.estimate == map[]
      ensures slam.relinearizeThreshold == 0.0001 && slam.relinearizeSkip == 1
      ensures fresh(slam)
    {
      trig := t;
      initialPose := MakePose2(t, initialState.x, initialState.y, initialState.theta);
      priorNoise := Diagonal([covariance, covariance, covariance]);
      observationNoise := ObservationNoise(t, beta);
      this.beta := beta;
      alphas := SquaredAlphas(rawAlphas);
      poseNum := 0;
      observationNum := FirstLandmarkId;
      statesNew := [[]];
      observationNew := [[]];
      graph := [];
      estimations := map[];
      result := map[];
      issued := [];
      slam := new Isam2(0.0001, 1);
      new;
      graph := graph + [PriorFactor(poseNum, initialPose, priorNoise)];
      estimations := Insert(estimations, poseNum, PoseValue(initialPose));
    }

    /** Reads the rows of every pose before poseNum and every landmark id
        below observationNum out of result. */
    method ConvertToNpFormat()
      requires forall i :: 0 <= i < poseNum ==> i in result && result[i].PoseValue?
      requires forall j :: FirstLandmarkId <= j < observationNum ==> j in result && result[j].PointValue?
      modifies this`statesNew, this`observationNew
      ensures RowsMatch(statesNew, observationNew, result, poseNum, observationNum)
    {
      var states: seq<seq<real>> := [];
      var landmarks: seq<seq<real>> := [];
      for i := 0 to poseNum
        invariant |states| == i
        invariant forall k :: 0 <= k < i ==> states[k] == PoseRow(result[k].pose)
      {
        states := states + [[AtPose2(result, i).x, AtPose2(result, i).y]];
      }
      var j := FirstLandmarkId;
      while j < observationNum
        invariant FirstLandmarkId <= j && (observationNum < FirstLandmarkId ==> j == FirstLandmarkId)
        invariant observationNum >= FirstLandmarkId ==> j <= observationNum
        invariant |landmarks| == j - FirstLandmarkId
        invariant forall k :: 0 <= k < |landmarks| ==>
                    landmarks[k] == PointRow(result[FirstLandmarkId + k].point)
      {
        landmarks := landmarks + [[AtPoint2(result, j).x, AtPoint2(result, j).y]];
        j := j + 1;
      }
      statesNew := states;
      observationNew := landmarks;
    }

    /** Lines 127-139 of update, the body of the loop over the measurements:
        a bearing-range factor from the old pose to the next free landmark
        id, and that landmark's position predicted from result's estimate of
        the old pose. */
    method AddMeasurement(m: Measurement)
      requires poseNum in result && result[poseNum].PoseValue?
      requires observationNum !in estimations
      modifies this`graph, this`observationNum, this`estimations, this`issued
      ensures graph == old(graph) + [BearingRangeFactor(poseNum, old(observationNum),
                                                         trig.rot2(m.bearing), m.distance, observationNoise)]
      ensures estimations == old(estimations)[old(observationNum) :=
                PointValue(LandmarkPosition(trig, AtPose2(result, poseNum), m.distance, trig.rot2(m.bearing)))]
      ensures observationNum == old(observationNum) + 1
      ensures issued == old(issued) + [old(observationNum)]
    {
      var bearing := trig.rot2(m.bearing);
      var distance := m.distance;
      var landmarkId := observationNum;
      graph := graph + [BearingRangeFactor(poseNum, landmarkId, bearing, distance, observationNoise)];
      var landmarkPosition := LandmarkPosition(trig, AtPose2(result, poseNum), distance, bearing);
      estimations := Insert(estimations, landmarkId, PointValue(landmarkPosition));
      issued := issued + [landmarkId];
      observationNum := observationNum + 1;
    }

    /** Lines 126-139 of update, the loop over the measurements: one
        bearing-range factor from the old pose and one predicted landmark per
        measurement, under consecutive landmark ids. */
    method AddMeasurements(measurement: seq<Measurement>, ghost previous: Pose)
      requires poseNum in result && result[poseNum] == PoseValue(previous)
      requires forall k :: k in estimations ==> k < observationNum
      modifies this`graph, this`observationNum, this`estimations, this`issued
      ensures observationNum == old(observationNum) + |measurement|
      ensures issued == WithIssuedIds(old(issued), old(observationNum), |measurement|)
      ensures graph == WithLandmarkFactors(trig, observationNoise, old(graph), poseNum, old(observationNum),
                                           measurement, |measurement|)
      ensures estimations == WithLandmarks(trig, old(estimations), old(observationNum), previous,
                                           measurement, |measurement|)
    {
      ghost var o, g1, e1, i1 := observationNum, graph, estimations, issued;
      for i := 0 to |measurement|
        invariant observationNum == o + i
        invariant issued == WithIssuedIds(i1, o, i)
        invariant graph == WithLandmarkFactors(trig, observationNoise, g1, poseNum, o, measurement, i)
        invariant estimations == WithLandmarks(trig, e1, o, previous, measurement, i)
      {
        WithLandmarksOmits(trig, e1, o, previous, measurement, i, o + i);
        AddMeasurement(measurement[i]);
      }
    }

    /** Lines 113-139 of update: on the first call result is made to denote
        the pending estimations; then the between-factor and the predicted
        pose are added, and for each measurement a bearing-range factor from
        the old pose and the predicted landmark under the next free id. */
    method AddStep(motion: Motion, measurement: seq<Measurement>)
      requires poseNum + 1 < FirstLandmarkId <= observationNum
      requires CanPredict()
      requires forall k :: k in estimations ==> k <= poseNum
      modifies this`result, this`graph, this`observationNum, this`estimations, this`issued
      ensures result == old(PredictionSource())
      ensures observationNum == old(observationNum) + |measurement|
      ensures issued == WithIssuedIds(old(issued), old(observationNum), |measurement|)
      ensures graph == WithStepFactors(trig, alphas, observationNoise, old(graph), poseNum, old(observationNum),
                                       motion, measurement)
      ensures estimations == WithStep(trig, old(estimations), poseNum, old(observationNum), old(LatestPose()),
                                      motion, measurement)
    {
      ghost var previous := LatestPose();
      if poseNum == 0 {
        result := estimations;
      }
      var odometry := MotionGtsamFormat(trig, motion);
      var noise := MotionNoise(motion, alphas);
      var predictedState := MotionPrediction(trig, AtPose2(result, poseNum), motion);
      assert predictedState == MotionPrediction(trig, previous, motion);
      graph := graph + [BetweenFactor(poseNum, poseNum + 1, odometry, noise)];
      estimations := Insert(estimations, poseNum + 1, PoseValue(predictedState));
      ghost var e1 := estimations;
      AddMeasurements(measurement, previous);
      assert estimations == WithLandmarks(trig, e1, old(observationNum), previous, measurement, |measurement|);
    }

    /** Lines 166-174 of update: hand the pending graph and estimations to
        ISAM2, empty both, and read back the new estimate. */
    method SubmitIncrement()
      requires estimations.Keys !! slam.estimate.Keys
      requires FactorsWithin(graph, slam.estimate.Keys + estimations.Keys)
      modifies this`graph, this`result, this`estimations, slam
      ensures graph == [] && estimations == map[]
      ensures slam.factors == old(slam.factors) + old(graph)
      ensures slam.initials == old(slam.initials) + old(estimations)
      ensures forall k :: k in slam.estimate <==> k in old(slam.estimate) || k in old(estimations)
      ensures forall k :: k in old(slam.estimate) ==> SameKind(slam.estimate[k], old(slam.estimate)[k])
      ensures forall k :: k in old(estimations) ==> SameKind(slam.estimate[k], old(estimations)[k])
      ensures result == slam.estimate
    {
      slam.Update(graph, estimations);
      graph := [];
      estimations := map[];
      result := slam.CalculateEstimate();
    }

    /** Lines 111-176 of update, everything before the rows are rebuilt:
        the step is added to the pending increment, the increment is handed
        to ISAM2 and emptied, the estimate is read back and the pose counter
        advances. ISAM2 then holds exactly the poses 0 .. poseNum and the
        landmarks handed out so far, each of its kind, and every factor it
        holds is over keys it holds. */
    method AdvanceStep(motion: Motion, measurement: seq<Measurement>)
      requires Valid()
      requires poseNum + 1 < FirstLandmarkId
      modifies this`poseNum, this`observationNum, this`graph, this`estimations, this`result, this`issued, slam
      ensures poseNum == old(poseNum) + 1
      ensures observationNum == old(observationNum) + |measurement|
      ensures issued == WithIssuedIds(old(issued), old(observationNum), |measurement|)
      ensures graph == [] && estimations == map[]
      ensures slam.factors == old(slam.factors)
                + WithStepFactors(trig, alphas, observationNoise, old(graph), old(poseNum), old(observationNum),
                                  motion, measurement)
      ensures slam.initials == old(slam.initials)
                + WithStep(trig, old(estimations), old(poseNum), old(observationNum), old(LatestPose()),
                           motion, measurement)
      ensures forall k :: k in slam.estimate <==> IsStoreKey(k, poseNum + 1, observationNum)
      ensures WellTyped(slam.estimate)
      ensures FactorsWithin(slam.factors, slam.estimate.Keys)
      ensures result == slam.estimate
      ensures forall i :: 0 <= i < poseNum ==> i in result && result[i].PoseValue?
      ensures forall j :: FirstLandmarkId <= j < observationNum ==> j in result && result[j].PointValue?
    {
      ghost var p, o, n := poseNum, observationNum, |measurement|;
      ghost var g0, e0, store0, factors0 := graph, estimations, slam.estimate, slam.factors;
      ghost var previous := LatestPose();
      AddStep(motion, measurement);
      ghost var submitted, submittedFactors := estimations, graph;
      StepValuesKeys(trig, e0, p, o, previous, motion, measurement);
      SubmissionIsFresh(store0, e0, submitted, p, o, n);
      StepFactorsWithin(trig, alphas, observationNoise, g0, p, o, motion, measurement,
                        store0.Keys + submitted.Keys);
      SubmitIncrement();
      poseNum := poseNum + 1;
      AbsorbedIncrement(store0, factors0, submitted, submittedFactors, slam.estimate, poseNum + 1, observationNum);
    }

    /** One estimation step: predict the next pose from the latest estimate
        of pose poseNum, add the between-factor and one bearing-range factor
        and landmark per measurement, submit the increment to ISAM2, clear it,
        read back the estimate, advance the pose counter and rebuild the
        rows. */
    method Update(motion: Motion, measurement: seq<Measurement>)
      requires Valid()
      requires poseNum + 1 < FirstLandmarkId
      modifies this, slam
      ensures Valid()
      ensures poseNum == old(poseNum) + 1
      ensures observationNum == old(observationNum) + |measurement|
      ensures graph == [] && estimations == map[]
      ensures slam.factors == old(slam.factors)
                + WithStepFactors(trig, alphas, observationNoise, old(graph), old(poseNum), old(observationNum),
                                  motion, measurement)
      ensures old(poseNum) == 0 ==> slam.factors[0] == PriorFactor(0, initialPose, priorNoise)
      ensures issued == old(issued) + LandmarkIds(old(observationNum), |measurement|)
      ensures forall k :: FirstLandmarkId <= k && k in slam.estimate && k !in old(slam.estimate)
                <==> k in LandmarkIds(old(observationNum), |measurement|)
      ensures slam.initials == old(slam.initials)
                + WithStep(trig, old(estimations), old(poseNum), old(observationNum), old(LatestPose()),
                           motion, measurement)
      ensures forall k :: IsStepKey(k, old(poseNum), old(observationNum), |measurement|) ==>
                k !in old(slam.estimate) && k !in old(estimations)
      ensures forall k :: k in slam.estimate <==> IsStoreKey(k, poseNum + 1, observationNum)
      ensures result == slam.estimate
      ensures RowsMatch(statesNew, observationNew, result, poseNum, observationNum)
    {
      StepKeysFresh(poseNum, observationNum, |measurement|);
      StepFactorsShape(trig, alphas, observationNoise, graph, poseNum, observationNum, motion, measurement);
      ghost var p, o, store := poseNum, observationNum, slam.estimate;
      IssuedAfterStep(issued, o, |measurement|);
      AdvanceStep(motion, measurement);
      NewLandmarkKeys(store, slam.estimate, p, o, |measurement|);
      ConvertToNpFormat();
    }

    /** In every reachable state the landmark ids handed out so far are
        strictly increasing from the first landmark id, so none is handed out
        twice, and once ISAM2 holds anything they are exactly the landmark
        keys it holds. */
    lemma IssuedIdsAreDistinct()
      requires Valid()
      ensures forall i, j :: 0 <= i < j < |issued| ==> FirstLandmarkId <= issued[i] < issued[j]
      ensures poseNum > 0 ==> forall k :: FirstLandmarkId <= k ==> (k in slam.estimate <==> k in issued)
    {
      if poseNum > 0 {
        forall k | FirstLandmarkId <= k && k in slam.estimate ensures k in issued {
          assert issued[k - FirstLandmarkId] == k;
        }
      }
    }
  }
}

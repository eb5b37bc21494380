/** The parts of the gtsam library the wrapper talks to, reduced to what the
    wrapper can observe: the values container, the factor kinds it builds with
    their noise models, and ISAM2 as an abstract store of submitted
    increments. The numbers the solver produces are not modelled. */
module Gtsam {
  import opened Geometry

  /** An entry of a gtsam.Values container: a pose or a point. */
  datatype Value = PoseValue(pose: Pose) | PointValue(point: Point)

  /** noiseModel_Diagonal.Sigmas: a diagonal noise model given by its sigmas. */
  datatype Noise = Diagonal(sigmas: seq<real>)

  /** The three factor kinds the wrapper adds to its graph. The bearing of a
      bearing-range factor is the angle of the Rot2 built from the reading. */
  datatype Factor =
    | PriorFactor(key: int, prior: Pose, noise: Noise)
    | BetweenFactor(key1: int, key2: int, relative: Pose, noise: Noise)
    | BearingRangeFactor(poseKey: int, pointKey: int, bearing: real, range: real, noise: Noise)

  /** The variables a factor constrains. */
  function FactorKeys(f: Factor): set<int>
  {
    match f
    case PriorFactor(k, _, _) => {k}
    case BetweenFactor(k1, k2, _, _) => {k1, k2}
    case BearingRangeFactor(p, l, _, _, _) => {p, l}
  }

  /** Every factor of the list constrains only variables in keys. */
  ghost predicate FactorsWithin(factors: seq<Factor>, keys: set<int>)
  {
    forall i :: 0 <= i < |factors| ==> FactorKeys(factors[i]) <= keys
  }

  predicate SameKind(a: Value, b: Value)
  {
    a.PoseValue? == b.PoseValue?
  }

  /** gtsam.Values: a map from keys to poses and points. */
  type Values = map<int, Value>

  /** Values.insert, which refuses a key that is already present. */
  function Insert(values: Values, key: int, value: Value): (r: Values)
    requires key !in values
    ensures r.Keys == values.Keys + {key} && r[key] == value
    ensures forall k :: k in values ==> r[k] == values[k]
  {
    values[key := value]
  }

  /** Values.atPose2, which refuses a missing key or a point. */
  function AtPose2(values: Values, key: int): (r: Pose)
    requires key in values && values[key].PoseValue?
    ensures values[key] == PoseValue(r)
  {
    values[key].pose
  }

  /** Values.atPoint2, which refuses a missing key or a pose. */
  function AtPoint2(values: Values, key: int): (r: Point)
    requires key in values && values[key].PointValue?
    ensures values[key] == PointValue(r)
  {
    values[key].point
  }

  /** ISAM2 as an abstract store. What it promises here is an assumption
      about the library: each update absorbs the submitted factors and
      initial estimates, refuses a key it already holds or a factor over a
      key it does not know, and its estimate then holds exactly the keys
      submitted so far, each of the kind (pose or point) it was submitted
      as. The values of the estimate are left open; the body below merely
      keeps the initial estimates, which is one of the behaviours the
      contract admits. */
  class Isam2 {
    const relinearizeThreshold: real
    const relinearizeSkip: int
    /** All factors absorbed so far. */
    var factors: seq<Factor>
    /** All initial estimates absorbed so far. */
    var initials: Values
    /** The current estimate. */
    var estimate: Values

    constructor (threshold: real, skip: int)
      ensures relinearizeThreshold == threshold && relinearizeSkip == skip
      ensures factors == [] && initials == map[] && estimate == map[]
    {
      relinearizeThreshold, relinearizeSkip := threshold, skip;
      factors, initials, estimate := [], map[], map[];
    }

    method Update(newFactors: seq<Factor>, newValues: Values)
      requires newValues.Keys !! estimate.Keys
      requires FactorsWithin(newFactors, estimate.Keys + newValues.Keys)
      modifies this
      ensures factors == old(factors) + newFactors
      ensures initials == old(initials) + newValues
      ensures estimate.Keys == old(estimate).Keys + newValues.Keys
      ensures forall k :: k in old(estimate) ==> SameKind(estimate[k], old(estimate)[k])
      ensures forall k :: k in newValues ==> SameKind(estimate[k], newValues[k])
    {
      factors := factors + newFactors;
      initials := initials + newValues;
      estimate := estimate + newValues;
    }

    method CalculateEstimate() returns (r: Values)
      ensures r == estimate
    {
      r := estimate;
    }
  }
}

/** `UKF::Prediction` (src/ukf.cpp:136-220): augment the state with the two
    process-noise terms, spread sigma points around it, push every point through
    the constant-turn-rate-and-velocity (CTRV) motion model, and recover the
    predicted mean and covariance from the moved points. */
module Predictor {
  import opened LinearAlgebra
  import opened Primitives
  import opened Angles
  import opened SigmaPoints

  /** A strictly positive real: the `nearZero_` threshold at or below which a
      yaw rate is treated as zero. */
  type PosReal = x: real | x > 0.0 witness 1.0

  /** `x_aug`: the state followed by the two noise terms, whose mean is zero. */
  function AugmentedMean(x: Vector): (xa: Vector)
    requires |x| == NX
    ensures |xa| == NAug
    ensures xa[..NX] == x && xa[NX] == 0.0 && xa[NX + 1] == 0.0
    ensures forall i :: 0 <= i < NX ==> xa[i] == x[i]
  {
    x + [0.0, 0.0]
  }

  /** `P_aug`: `P` in the top-left corner, the two noise variances on the rest of
      the diagonal, zero everywhere else. */
  function AugmentedCovariance(P: Matrix, stdA: real, stdYawdd: real): (Q: Matrix)
    requires IsMatrix(P, NX, NX)
    ensures IsMatrix(Q, NAug, NAug)
    ensures forall i, j :: 0 <= i < NX && 0 <= j < NX ==> Q[i][j] == P[i][j]
    ensures Q[NX][NX] == stdA * stdA && Q[NX + 1][NX + 1] == stdYawdd * stdYawdd
    ensures forall i, j :: 0 <= i < NAug && NX <= j < NAug && i != j ==> Q[i][j] == 0.0 && Q[j][i] == 0.0
  {
    seq(NAug, i requires 0 <= i < NAug =>
      seq(NAug, j requires 0 <= j < NAug =>
        if i < NX && j < NX then P[i][j]
        else if i == j == NX then stdA * stdA
        else if i == j == NX + 1 then stdYawdd * stdYawdd
        else 0.0))
  }

  /** The augmented covariance of a symmetric covariance is symmetric. */
  lemma AugmentedCovarianceSymmetric(P: Matrix, stdA: real, stdYawdd: real)
    requires IsMatrix(P, NX, NX) && IsSymmetric(P, NX)
    ensures IsSymmetric(AugmentedCovariance(P, stdA, stdYawdd), NAug)
  {
    var Q := AugmentedCovariance(P, stdA, stdYawdd);
    forall i, j | 0 <= i < NAug && 0 <= j < NAug
      ensures Q[i][j] == Q[j][i]
    {
      if i < NX && j < NX {
        assert Q[i][j] == P[i][j] && Q[j][i] == P[j][i];
      }
    }
  }

  /** The noise-free change of position over `dt`: along a circular arc when the
      yaw rate's magnitude exceeds `nearZero`, along the current heading
      otherwise. */
  function Displacement(v: real, yaw: real, yawd: real, dt: real, nearZero: PosReal, lib: Library): (d: (real, real))
    ensures dt == 0.0 ==> d.0 == 0.0 && d.1 == 0.0
  {
    if Abs(yawd) > nearZero then
      assert dt == 0.0 ==> yaw + yawd * dt == yaw;
      (v / yawd * (lib.sin(yaw + yawd * dt) - lib.sin(yaw)),
       v / yawd * (lib.cos(yaw) - lib.cos(yaw + yawd * dt)))
    else
      (v * dt * lib.cos(yaw), v * dt * lib.sin(yaw))
  }

  /** One column of `Xsig_pred_`: the CTRV model applied to the augmented sigma
      point `s = (px, py, v, yaw, yawd, nu_a, nu_yawdd)` over `dt` seconds, the
      noise terms adding their contributions after the displacement. */
  function PredictSigmaPoint(s: Vector, dt: real, nearZero: PosReal, lib: Library): (r: Vector)
    requires |s| == NAug
    ensures |r| == NX
    // Over no time nothing moves, in either branch, whatever the noise.
    ensures dt == 0.0 ==> r == s[..NX]
    // Without longitudinal noise the speed is constant.
    ensures s[NX] == 0.0 ==> r[2] == s[2]
    // Without yaw noise the yaw rate is constant and the yaw advances by it.
    ensures s[NX + 1] == 0.0 ==> r[4] == s[4] && r[3] == s[3] + s[4] * dt
  {
    var px, py, v, yaw, yawd, nuA, nuYawdd := s[0], s[1], s[2], s[3], s[4], s[5], s[6];
    var d := Displacement(v, yaw, yawd, dt, nearZero, lib);
    [px + d.0 + 0.5 * nuA * dt * dt * lib.cos(yaw),
     py + d.1 + 0.5 * nuA * dt * dt * lib.sin(yaw),
     v + nuA * dt,
     yaw + yawd * dt + 0.5 * nuYawdd * dt * dt,
     yawd + nuYawdd * dt]
  }

  /** The noise-free CTRV motion of a state `(px, py, v, yaw, yawd)` over `dt`:
      speed and yaw rate are kept, the yaw turns by `yawd * dt` and the position
      moves by the displacement. */
  function Ctrv(x: Vector, dt: real, nearZero: PosReal, lib: Library): (r: Vector)
    requires |x| == NX
    ensures |r| == NX
  {
    var d := Displacement(x[2], x[3], x[4], dt, nearZero, lib);
    [x[0] + d.0, x[1] + d.1, x[2], x[3] + x[4] * dt, x[4]]
  }

  /** A sigma point whose noise terms are zero (as the augmented mean's are)
      moves by the noise-free CTRV motion. */
  lemma NoiseFreeStep(x: Vector, dt: real, nearZero: PosReal, lib: Library)
    requires |x| == NX
    ensures PredictSigmaPoint(AugmentedMean(x), dt, nearZero, lib) == Ctrv(x, dt, nearZero, lib)
  {
    var s := AugmentedMean(x);
    assert s[0] == x[0] && s[1] == x[1] && s[2] == x[2] && s[3] == x[3] && s[4] == x[4];
    var d := Displacement(x[2], x[3], x[4], dt, nearZero, lib);
    var r := PredictSigmaPoint(s, dt, nearZero, lib);
    var e := Ctrv(x, dt, nearZero, lib);
    assert r[0] == x[0] + d.0 + 0.5 * 0.0 * dt * dt * lib.cos(x[3]) == e[0];
    assert r[1] == x[1] + d.1 + 0.5 * 0.0 * dt * dt * lib.sin(x[3]) == e[1];
    assert r[2] == e[2] && r[3] == e[3] && r[4] == e[4];
  }

  lemma Telescope(q: real, a: real, b: real, c: real)
    ensures q * (b - a) + q * (c - b) == q * (c - a)
    ensures q * (a - b) + q * (b - c) == q * (a - c)
  {
    calc {
      q * (b - a) + q * (c - b);
      q * ((b - a) + (c - b));
    }
    calc {
      q * (a - b) + q * (b - c);
      q * ((a - b) + (b - c));
    }
  }

  lemma StraightSteps(v: real, dt1: real, dt2: real, t: real)
    ensures v * dt1 * t + v * dt2 * t == v * (dt1 + dt2) * t
  {
    calc {
      v * dt1 * t + v * dt2 * t;
      (v * t) * (dt1 + dt2);
    }
  }

  /** On the arc, and on the line when the yaw rate is exactly zero, the
      displacement over `dt1 + dt2` is the displacement over `dt1` followed by
      the displacement over `dt2` from the heading reached after `dt1`. */
  lemma DisplacementComposes(v: real, yaw: real, yawd: real, dt1: real, dt2: real, nearZero: PosReal, lib: Library)
    requires Abs(yawd) > nearZero || yawd == 0.0
    ensures
      var d1 := Displacement(v, yaw, yawd, dt1, nearZero, lib);
      var d2 := Displacement(v, yaw + yawd * dt1, yawd, dt2, nearZero, lib);
      var d := Displacement(v, yaw, yawd, dt1 + dt2, nearZero, lib);
      d1.0 + d2.0 == d.0 && d1.1 + d2.1 == d.1
  {
    var yaw1, yaw2 := yaw + yawd * dt1, yaw + yawd * (dt1 + dt2);
    assert yaw1 + yawd * dt2 == yaw2;
    if Abs(yawd) > nearZero {
      Telescope(v / yawd, lib.sin(yaw), lib.sin(yaw1), lib.sin(yaw2));
      Telescope(v / yawd, lib.cos(yaw), lib.cos(yaw1), lib.cos(yaw2));
    } else {
      assert yaw1 == yaw;
      StraightSteps(v, dt1, dt2, lib.cos(yaw));
      StraightSteps(v, dt1, dt2, lib.sin(yaw));
    }
  }

  /** On the arc, and on the line with a yaw rate of exactly zero, the
      noise-free CTRV motion is a flow: moving over `dt1` and then over `dt2`
      lands where moving over `dt1 + dt2` does. */
  lemma FlowComposes(x: Vector, dt1: real, dt2: real, nearZero: PosReal, lib: Library)
    requires |x| == NX
    requires Abs(x[4]) > nearZero || x[4] == 0.0
    ensures Ctrv(Ctrv(x, dt1, nearZero, lib), dt2, nearZero, lib) == Ctrv(x, dt1 + dt2, nearZero, lib)
  {
    var mid := Ctrv(x, dt1, nearZero, lib);
    var d1 := Displacement(x[2], x[3], x[4], dt1, nearZero, lib);
    var d2 := Displacement(x[2], x[3] + x[4] * dt1, x[4], dt2, nearZero, lib);
    var d := Displacement(x[2], x[3], x[4], dt1 + dt2, nearZero, lib);
    assert mid[0] == x[0] + d1.0 && mid[1] == x[1] + d1.1;
    assert mid[2] == x[2] && mid[3] == x[3] + x[4] * dt1 && mid[4] == x[4];
    assert Displacement(mid[2], mid[3], mid[4], dt2, nearZero, lib) == d2;
    DisplacementComposes(x[2], x[3], x[4], dt1, dt2, nearZero, lib);
    Distributes(x[4], dt1, dt2);
    var r := Ctrv(mid, dt2, nearZero, lib);
    var e := Ctrv(x, dt1 + dt2, nearZero, lib);
    assert r[0] == e[0] && r[1] == e[1] && r[2] == e[2] && r[4] == e[4];
    assert r[3] == e[3];
  }

  /** On the straight-line branch a nonzero yaw rate still turns the heading
      although the position moves along the old one: after one step the
      heading the next step moves along has changed. */
  lemma LineStepTurnsHeading(x: Vector, dt: real, nearZero: PosReal, lib: Library)
    requires |x| == NX
    requires 0.0 < Abs(x[4]) <= nearZero && dt != 0.0
    ensures var r := Ctrv(x, dt, nearZero, lib);
            && r[0] == x[0] + x[2] * dt * lib.cos(x[3])
            && r[1] == x[1] + x[2] * dt * lib.sin(x[3])
            && r[3] != x[3]
  {
  }

  /** So the flow property fails on the straight-line branch: with the sine
      and cosine replaced by the identity, a unit-speed state heading along 0
      with yaw rate 0.5 (at most `nearZero_` = 1) moves sideways in the second
      of two one-second steps, but not at all in one two-second step. */
  lemma LineStepBreaksFlow()
    ensures var lib: Library := MathLibrary(a => a, a => a, a => a, (b, a) => 0.0, m => m, m => m, a => 0.0);
            var x := [0.0, 0.0, 1.0, 0.0, 0.5];
            && Ctrv(Ctrv(x, 1.0, 1.0, lib), 1.0, 1.0, lib)[1] == 0.5
            && Ctrv(x, 2.0, 1.0, lib)[1] == 0.0
            && Ctrv(Ctrv(x, 1.0, 1.0, lib), 1.0, 1.0, lib) != Ctrv(x, 2.0, 1.0, lib)
  {
    var lib: Library := MathLibrary(a => a, a => a, a => a, (b, a) => 0.0, m => m, m => m, a => 0.0);
    var x := [0.0, 0.0, 1.0, 0.0, 0.5];
    var mid := Ctrv(x, 1.0, 1.0, lib);
    assert mid[1] == 0.0 && mid[3] == 0.5;
    assert Ctrv(mid, 1.0, 1.0, lib)[1] == 0.5;
    assert Ctrv(x, 2.0, 1.0, lib)[1] == 0.0;
  }

  /** `Xsig_pred_`: every augmented sigma point moved by the CTRV model. */
  function PredictSigmaPoints(sigAug: seq<Vector>, dt: real, nearZero: PosReal, lib: Library): (pred: seq<Vector>)
    requires AllOfLength(sigAug, NAug)
    ensures |pred| == |sigAug| && AllOfLength(pred, NX)
    ensures forall i :: 0 <= i < |sigAug| ==> pred[i] == PredictSigmaPoint(sigAug[i], dt, nearZero, lib)
  {
    seq(|sigAug|, i requires 0 <= i < |sigAug| => PredictSigmaPoint(sigAug[i], dt, nearZero, lib))
  }

  /** `x_diff` with its yaw component (index 3) passed through `NormalizeAngle`. */
  function YawNormalized(d: Vector): (r: Vector)
    requires |d| == NX
    ensures |r| == NX && -Pi <= r[3] <= Pi
    ensures forall j :: 0 <= j < NX && j != 3 ==> r[j] == d[j]
    ensures Abs(d[3]) <= Pi ==> r == d
  {
    d[3 := NormalizedAngle(d[3])]
  }

  /** The deviations `Xsig_pred_.col(i) - x_` of the predicted points from the
      predicted mean, each with its yaw difference normalised. */
  function StateDeviations(sig: seq<Vector>, x: Vector): (ds: seq<Vector>)
    requires |x| == NX && AllOfLength(sig, NX)
    ensures |ds| == |sig| && AllOfLength(ds, NX)
    ensures forall i :: 0 <= i < |sig| ==> ds[i] == YawNormalized(Sub(sig[i], x))
  {
    seq(|sig|, i requires 0 <= i < |sig| => YawNormalized(Sub(sig[i], x)))
  }

  /** The augmented sigma points `Predict` spreads. */
  function AugmentedSigmaPoints(x: Vector, P: Matrix, stdA: real, stdYawdd: real, lib: Library): (sig: seq<Vector>)
    requires |x| == NX && IsMatrix(P, NX, NX)
    ensures |sig| == NSigma && AllOfLength(sig, NAug)
  {
    CreateSigmaPoints(AugmentedMean(x), AugmentedCovariance(P, stdA, stdYawdd), lib)
  }

  /** What `Prediction` leaves in `x_`, `P_` and `Xsig_pred_`. */
  datatype Predicted = Predicted(x: Vector, P: Matrix, sigmaPoints: seq<Vector>)

  /** `UKF::Prediction(delta_t)` on the state `x`, covariance `P` and the process
      noise deviations `stdA`, `stdYawdd`. The predicted covariance is a weighted
      sum of outer products of a family with itself, so it is symmetric whatever
      the moved points are. */
  function Predict(x: Vector, P: Matrix, dt: real, stdA: real, stdYawdd: real, nearZero: PosReal, lib: Library): (p: Predicted)
    requires |x| == NX && IsMatrix(P, NX, NX)
    ensures |p.x| == NX && IsMatrix(p.P, NX, NX)
    ensures |p.sigmaPoints| == NSigma && AllOfLength(p.sigmaPoints, NX)
    ensures IsSymmetric(p.P, NX)
  {
    var sigAug := AugmentedSigmaPoints(x, P, stdA, stdYawdd, lib);
    var pred := PredictSigmaPoints(sigAug, dt, nearZero, lib);
    var mean := Combination(Weights(), pred, NX);
    var ds := StateDeviations(pred, mean);
    WeightedOuterSumSymmetric(Weights(), ds, NX);
    Predicted(mean, WeightedOuterSum(Weights(), ds, ds, NX, NX), pred)
  }

  /** The predicted mean is the weighted mean of the predicted sigma points, and
      these are the augmented sigma points moved by the CTRV model. */
  lemma PredictStructure(x: Vector, P: Matrix, dt: real, stdA: real, stdYawdd: real, nearZero: PosReal, lib: Library)
    requires |x| == NX && IsMatrix(P, NX, NX)
    ensures
      var p := Predict(x, P, dt, stdA, stdYawdd, nearZero, lib);
      && p.sigmaPoints == PredictSigmaPoints(AugmentedSigmaPoints(x, P, stdA, stdYawdd, lib), dt, nearZero, lib)
      && p.x == Combination(Weights(), p.sigmaPoints, NX)
      && p.P == WeightedOuterSum(Weights(), StateDeviations(p.sigmaPoints, p.x), StateDeviations(p.sigmaPoints, p.x), NX, NX)
  {
  }

  /** A prediction over zero seconds leaves the state estimate where it was:
      the sigma points do not move, and their weighted mean is the augmented
      state, whose first five components are `x`. */
  lemma PredictOverNoTimeKeepsState(x: Vector, P: Matrix, stdA: real, stdYawdd: real, nearZero: PosReal, lib: Library)
    requires |x| == NX && IsMatrix(P, NX, NX)
    ensures Predict(x, P, 0.0, stdA, stdYawdd, nearZero, lib).x == x
  {
    var xa := AugmentedMean(x);
    var Pa := AugmentedCovariance(P, stdA, stdYawdd);
    var sigAug := CreateSigmaPoints(xa, Pa, lib);
    var pred := PredictSigmaPoints(sigAug, 0.0, nearZero, lib);
    var mean := Combination(Weights(), pred, NX);
    var augMean := Combination(Weights(), sigAug, NAug);
    WeightedMeanOfSigmaPoints(xa, Pa, lib);
    forall j | 0 <= j < NX
      ensures mean[j] == x[j]
    {
      forall i | 0 <= i < |pred|
        ensures pred[i][j] == sigAug[i][j]
      {
        assert pred[i] == sigAug[i][..NX];
      }
      WeightedSumLocal(Weights(), pred, sigAug, j);
      assert mean[j] == augMean[j];
      assert xa[..NX][j] == x[j];
    }
    PredictStructure(x, P, 0.0, stdA, stdYawdd, nearZero, lib);
  }

  /** No augmented sigma point's yaw lies more than pi from the state's yaw,
      so `NormalizeAngle` leaves every yaw deviation alone. */
  ghost predicate YawSpreadWithinPi(x: Vector, P: Matrix, stdA: real, stdYawdd: real, lib: Library)
    requires |x| == NX && IsMatrix(P, NX, NX)
  {
    var es := Deviations(AugmentedSigmaPoints(x, P, stdA, stdYawdd, lib), AugmentedMean(x));
    forall i :: 0 <= i < NSigma ==> Abs(es[i][3]) <= Pi
  }

  /** Over zero seconds the yaw-normalised deviations of the predicted points
      from the state are the deviations of the augmented sigma points from the
      augmented state, provided no yaw spread exceeds pi (otherwise
      `NormalizeAngle` would shift it). */
  lemma NoTimeDeviations(x: Vector, P: Matrix, stdA: real, stdYawdd: real, nearZero: PosReal, lib: Library)
    requires |x| == NX && IsMatrix(P, NX, NX)
    requires YawSpreadWithinPi(x, P, stdA, stdYawdd, lib)
    ensures
      var sigAug := AugmentedSigmaPoints(x, P, stdA, stdYawdd, lib);
      var ds := StateDeviations(PredictSigmaPoints(sigAug, 0.0, nearZero, lib), x);
      var es := Deviations(sigAug, AugmentedMean(x));
      forall i, j :: 0 <= i < NSigma && 0 <= j < NX ==> ds[i][j] == es[i][j]
  {
    var xa, Pa := AugmentedMean(x), AugmentedCovariance(P, stdA, stdYawdd);
    var sigAug := AugmentedSigmaPoints(x, P, stdA, stdYawdd, lib);
    var pred := PredictSigmaPoints(sigAug, 0.0, nearZero, lib);
    var ds := StateDeviations(pred, x);
    var es := Deviations(sigAug, xa);
    forall i, j | 0 <= i < NSigma && 0 <= j < NX
      ensures ds[i][j] == es[i][j]
    {
      assert pred[i] == sigAug[i][..NX];
      assert xa[j] == x[j];
      var d := Sub(pred[i], x);
      assert d[j] == es[i][j];
      assert ds[i] == YawNormalized(d);
    }
  }

  /** A prediction over zero seconds leaves the covariance where it was when the
      library's Cholesky factor and square root are exact and no yaw spread of
      the sigma points exceeds pi. */
  lemma PredictOverNoTimeKeepsCovariance(x: Vector, P: Matrix, stdA: real, stdYawdd: real, nearZero: PosReal, lib: Library)
    requires |x| == NX && IsMatrix(P, NX, NX)
    requires var Pa := AugmentedCovariance(P, stdA, stdYawdd);
      var L := Cholesky(lib, Pa, NAug); MatMul(L, Transpose(L, NAug), NAug) == Pa
    requires lib.sqrt(5.0) * lib.sqrt(5.0) == 5.0
    requires YawSpreadWithinPi(x, P, stdA, stdYawdd, lib)
    ensures Predict(x, P, 0.0, stdA, stdYawdd, nearZero, lib).P == P
  {
    var xa, Pa := AugmentedMean(x), AugmentedCovariance(P, stdA, stdYawdd);
    var sigAug := AugmentedSigmaPoints(x, P, stdA, stdYawdd, lib);
    var p := Predict(x, P, 0.0, stdA, stdYawdd, nearZero, lib);
    PredictStructure(x, P, 0.0, stdA, stdYawdd, nearZero, lib);
    PredictOverNoTimeKeepsState(x, P, stdA, stdYawdd, nearZero, lib);
    var ds := StateDeviations(p.sigmaPoints, x);
    var es := Deviations(sigAug, xa);
    NoTimeDeviations(x, P, stdA, stdYawdd, nearZero, lib);
    WeightedCovarianceOfSigmaPoints(xa, Pa, lib);
    var augCov := WeightedOuterSum(Weights(), es, es, NAug, NAug);
    forall a | 0 <= a < NX
      ensures p.P[a] == P[a]
    {
      forall b | 0 <= b < NX
        ensures p.P[a][b] == P[a][b]
      {
        OuterTermsLocal(Weights(), ds, es, a, b);
        assert augCov[a][b] == Pa[a][b];
      }
    }
  }
}

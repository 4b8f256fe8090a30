/** `UKF::UpdateLidar` (src/ukf.cpp:226-288) and `UKF::UpdateRadar`
    (src/ukf.cpp:294-376): map the predicted sigma points into the sensor's
    measurement space, recover the predicted measurement and its covariance,
    and correct the state by the Kalman gain times the innovation. */
module Updaters {
  import opened LinearAlgebra
  import opened Primitives
  import opened Angles
  import opened SigmaPoints
  import opened Predictor

  /** `n_lidar`: a laser measures `(px, py)`. */
  const NLidar: nat := 2

  /** `n_radar`: a radar measures range, bearing and range rate. */
  const NRadar: nat := 3

  /** What an update leaves behind: the corrected state and covariance, the
      innovation `z - z_pred` it corrected by, and the normalised innovation
      squared `NIS_lidar_` or `NIS_radar_`. */
  datatype Corrected = Corrected(x: Vector, P: Matrix, innovation: Vector, nis: real)

  /** `z_pred`: the weighted mean of the sigma points in measurement space. */
  function PredictedMeasurement(zsig: seq<Vector>, n: nat): (zPred: Vector)
    requires |zsig| == NSigma && AllOfLength(zsig, n)
    ensures |zPred| == n
  {
    Combination(Weights(), zsig, n)
  }

  /** `S`: the weighted covariance of the measurement deviations plus the
      additive measurement noise `R`. Whatever the deviations, it is symmetric
      when `R` is. */
  function InnovationCovariance(zd: seq<Vector>, R: Matrix, n: nat): (S: Matrix)
    requires |zd| == NSigma && AllOfLength(zd, n) && IsMatrix(R, n, n)
    ensures IsMatrix(S, n, n)
    ensures IsSymmetric(R, n) ==> IsSymmetric(S, n)
  {
    WeightedOuterSumSymmetric(Weights(), zd, n);
    MatAdd(WeightedOuterSum(Weights(), zd, zd, n, n), R, n, n)
  }

  /** `Tc`: the weighted cross-covariance of state and measurement deviations. */
  function CrossCovariance(xd: seq<Vector>, zd: seq<Vector>, n: nat): (Tc: Matrix)
    requires |xd| == |zd| == NSigma && AllOfLength(xd, NX) && AllOfLength(zd, n)
    ensures IsMatrix(Tc, NX, n)
  {
    WeightedOuterSum(Weights(), xd, zd, NX, n)
  }

  /** The Kalman correction both updates end with: `K = Tc * S^-1`,
      `x + K * y`, `P - K * S * K^T` and the NIS `y^T * S^-1 * y`, for the
      innovation `y`. An innovation of zero leaves the state where it was and
      has an NIS of zero, whatever the library's inverse returns. */
  function Correct(x: Vector, P: Matrix, S: Matrix, Tc: Matrix, y: Vector, lib: Library): (c: Corrected)
    requires |x| == NX && IsMatrix(P, NX, NX) && IsMatrix(S, |y|, |y|) && IsMatrix(Tc, NX, |y|)
    ensures |c.x| == NX && IsMatrix(c.P, NX, NX) && c.innovation == y
    ensures (forall i :: 0 <= i < |y| ==> y[i] == 0.0) ==> c.x == x && c.nis == 0.0
  {
    var n := |y|;
    var Si := Inverse(lib, S, n);
    var K := MatMul(Tc, Si, n);
    var KS := MatMul(K, S, n);
    var correction := MatVec(K, y);
    var c := Corrected(Add(x, correction), MatSub(P, MatMul(KS, Transpose(K, n), NX), NX, NX), y, Dot(y, MatVec(Si, y)));
    assert (forall i :: 0 <= i < n ==> y[i] == 0.0) ==> c.x == x && c.nis == 0.0 by {
      if forall i :: 0 <= i < n ==> y[i] == 0.0 {
        MatVecZero(K, y);
        DotWithZeroLeft(y, MatVec(Si, y));
      }
    }
    c
  }

  /** `Zsig_transformed` for a laser: the position `(px, py)` of every point. */
  function LidarProjections(xsig: seq<Vector>): (zsig: seq<Vector>)
    requires AllOfLength(xsig, NX)
    ensures |zsig| == |xsig| && AllOfLength(zsig, NLidar)
    ensures forall i :: 0 <= i < |xsig| ==> zsig[i][0] == xsig[i][0] && zsig[i][1] == xsig[i][1]
  {
    seq(|xsig|, i requires 0 <= i < |xsig| => xsig[i][..NLidar])
  }

  /** `R` for a laser. */
  function LidarNoise(stdLaspx: real, stdLaspy: real): (R: Matrix)
    ensures IsMatrix(R, NLidar, NLidar) && IsSymmetric(R, NLidar)
  {
    Diagonal([stdLaspx * stdLaspx, stdLaspy * stdLaspy])
  }

  /** `UKF::UpdateLidar` for the measurement `z = (px, py)`, on the state `x`,
      covariance `P` and predicted sigma points `xsig`. No deviation is
      angle-normalised. */
  function UpdateLidar(x: Vector, P: Matrix, xsig: seq<Vector>, z: Vector,
                       stdLaspx: real, stdLaspy: real, lib: Library): (c: Corrected)
    requires |x| == NX && IsMatrix(P, NX, NX) && |xsig| == NSigma && AllOfLength(xsig, NX)
    requires |z| == NLidar
    ensures |c.x| == NX && IsMatrix(c.P, NX, NX)
    ensures c.innovation == Sub(z, PredictedMeasurement(LidarProjections(xsig), NLidar))
  {
    var zsig := LidarProjections(xsig);
    var zPred := PredictedMeasurement(zsig, NLidar);
    var zd := Deviations(zsig, zPred);
    var S := InnovationCovariance(zd, LidarNoise(stdLaspx, stdLaspy), NLidar);
    var Tc := CrossCovariance(Deviations(xsig, x), zd, NLidar);
    Correct(x, P, S, Tc, Sub(z, zPred), lib)
  }

  /** The laser's predicted measurement is the position part of the weighted
      mean of the predicted sigma points, which is the predicted state's
      position right after `Prediction`. */
  lemma LidarPredictionIsPosition(xsig: seq<Vector>)
    requires |xsig| == NSigma && AllOfLength(xsig, NX)
    ensures
      var mean := Combination(Weights(), xsig, NX);
      PredictedMeasurement(LidarProjections(xsig), NLidar) == [mean[0], mean[1]]
  {
    var zsig := LidarProjections(xsig);
    var zPred := PredictedMeasurement(zsig, NLidar);
    var mean := Combination(Weights(), xsig, NX);
    forall j | 0 <= j < NLidar
      ensures zPred[j] == mean[j]
    {
      WeightedSumLocal(Weights(), zsig, xsig, j);
    }
  }

  /** A laser measurement exactly at the predicted position leaves the
      predicted state unchanged and has an NIS of zero. */
  lemma LidarAtPredictionKeepsState(x: Vector, P: Matrix, xsig: seq<Vector>,
                                    stdLaspx: real, stdLaspy: real, lib: Library)
    requires |x| == NX && IsMatrix(P, NX, NX) && |xsig| == NSigma && AllOfLength(xsig, NX)
    requires x == Combination(Weights(), xsig, NX)
    ensures
      var c := UpdateLidar(x, P, xsig, [x[0], x[1]], stdLaspx, stdLaspy, lib);
      c.x == x && c.nis == 0.0
  {
    LidarPredictionIsPosition(xsig);
    var y := Sub([x[0], x[1]], PredictedMeasurement(LidarProjections(xsig), NLidar));
    assert forall i :: 0 <= i < NLidar ==> y[i] == 0.0;
  }

  /** The radar's view of a state `(px, py, v, yaw, ...)`: range
      `sqrt(px^2 + py^2)`, bearing `atan2(py, px)` and range rate
      `(px * v * cos(yaw) + py * v * sin(yaw)) / range`. A zero range leaves the
      range rate to IEEE division by zero. */
  function RadarProjection(s: Vector, lib: Library): (z: Vector)
    requires |s| == NX
    ensures |z| == NRadar
    ensures z[0] == lib.sqrt(s[0] * s[0] + s[1] * s[1]) && z[1] == lib.atan2(s[1], s[0])
    // Where the range is nonzero, range times range rate is the radial velocity component.
    ensures z[0] != 0.0 ==> z[2] * z[0] == s[0] * (lib.cos(s[3]) * s[2]) + s[1] * (lib.sin(s[3]) * s[2])
  {
    var v1, v2 := lib.cos(s[3]) * s[2], lib.sin(s[3]) * s[2];
    var range := lib.sqrt(s[0] * s[0] + s[1] * s[1]);
    [range, lib.atan2(s[1], s[0]), Quotient(lib, s[0] * v1 + s[1] * v2, range)]
  }

  /** `Zsig_transformed` for a radar. */
  function RadarProjections(xsig: seq<Vector>, lib: Library): (zsig: seq<Vector>)
    requires AllOfLength(xsig, NX)
    ensures |zsig| == |xsig| && AllOfLength(zsig, NRadar)
    ensures forall i :: 0 <= i < |xsig| ==> zsig[i] == RadarProjection(xsig[i], lib)
  {
    seq(|xsig|, i requires 0 <= i < |xsig| => RadarProjection(xsig[i], lib))
  }

  /** `z_diff` with its bearing component (index 1) passed through `NormalizeAngle`. */
  function BearingNormalized(d: Vector): (r: Vector)
    requires |d| == NRadar
    ensures |r| == NRadar && -Pi <= r[1] <= Pi && r[0] == d[0] && r[2] == d[2]
    ensures Abs(d[1]) <= Pi ==> r == d
  {
    d[1 := NormalizedAngle(d[1])]
  }

  /** The measurement deviations of the radar update, bearings normalised. */
  function BearingDeviations(zsig: seq<Vector>, zPred: Vector): (zd: seq<Vector>)
    requires |zPred| == NRadar && AllOfLength(zsig, NRadar)
    ensures |zd| == |zsig| && AllOfLength(zd, NRadar)
    ensures forall i :: 0 <= i < |zsig| ==> zd[i] == BearingNormalized(Sub(zsig[i], zPred))
  {
    seq(|zsig|, i requires 0 <= i < |zsig| => BearingNormalized(Sub(zsig[i], zPred)))
  }

  /** `R` for a radar. */
  function RadarNoise(stdRadr: real, stdRadphi: real, stdRadrd: real): (R: Matrix)
    ensures IsMatrix(R, NRadar, NRadar) && IsSymmetric(R, NRadar)
  {
    Diagonal([stdRadr * stdRadr, stdRadphi * stdRadphi, stdRadrd * stdRadrd])
  }

  /** `UKF::UpdateRadar` for the measurement `z = (rho, phi, rho_dot)`. The
      bearing deviations of the sigma points and their yaw deviations are
      normalised; the innovation `z - z_pred` is not, because the call meant to
      normalise its bearing discards its result (src/ukf.cpp:368). */
  function UpdateRadar(x: Vector, P: Matrix, xsig: seq<Vector>, z: Vector,
                       stdRadr: real, stdRadphi: real, stdRadrd: real, lib: Library): (c: Corrected)
    requires |x| == NX && IsMatrix(P, NX, NX) && |xsig| == NSigma && AllOfLength(xsig, NX)
    requires |z| == NRadar
    ensures |c.x| == NX && IsMatrix(c.P, NX, NX)
    ensures c.innovation == Sub(z, PredictedMeasurement(RadarProjections(xsig, lib), NRadar))
  {
    var zsig := RadarProjections(xsig, lib);
    var zPred := PredictedMeasurement(zsig, NRadar);
    var zd := BearingDeviations(zsig, zPred);
    var S := InnovationCovariance(zd, RadarNoise(stdRadr, stdRadphi, stdRadrd), NRadar);
    var Tc := CrossCovariance(StateDeviations(xsig, x), zd, NRadar);
    Correct(x, P, S, Tc, Sub(z, zPred), lib)
  }

  /** Unlike every deviation that goes into `S` and `Tc`, the radar innovation's
      bearing is left as measured minus predicted: a measured bearing just
      below `pi` against a predicted one just above `-pi` yields a bearing
      innovation near `2 * pi` rather than one near zero. */
  lemma RadarInnovationUnwrapped(x: Vector, P: Matrix, xsig: seq<Vector>, z: Vector,
                                 stdRadr: real, stdRadphi: real, stdRadrd: real, lib: Library)
    requires |x| == NX && IsMatrix(P, NX, NX) && |xsig| == NSigma && AllOfLength(xsig, NX)
    requires |z| == NRadar
    requires z[1] - PredictedMeasurement(RadarProjections(xsig, lib), NRadar)[1] > Pi
    ensures UpdateRadar(x, P, xsig, z, stdRadr, stdRadphi, stdRadrd, lib).innovation[1] > Pi
  {
  }

  /** A radar measurement exactly at the predicted measurement leaves the
      state unchanged and has an NIS of zero. */
  lemma RadarAtPredictionKeepsState(x: Vector, P: Matrix, xsig: seq<Vector>,
                                    stdRadr: real, stdRadphi: real, stdRadrd: real, lib: Library)
    requires |x| == NX && IsMatrix(P, NX, NX) && |xsig| == NSigma && AllOfLength(xsig, NX)
    ensures
      var zPred := PredictedMeasurement(RadarProjections(xsig, lib), NRadar);
      var c := UpdateRadar(x, P, xsig, zPred, stdRadr, stdRadphi, stdRadrd, lib);
      c.x == x && c.nis == 0.0
  {
  }
}

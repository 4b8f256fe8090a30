# Unscented Kalman filter for CTRV tracking, modelled in Dafny

This project models the core of a C++ unscented Kalman filter (`UKF`, in
`src/ukf.cpp`). The filter tracks one object with the constant-turn-rate-and-
velocity (CTRV) model. Its state is `(px, py, v, yaw, yawd)`. It fuses laser
measurements `(px, py)` and radar measurements `(rho, phi, rho_dot)`.

The model is split into modules that follow the source:

- `LinearAlgebra` (linear_algebra.dfy): vectors and matrices as sequences of
  reals, with weighted sums and weighted sums of outer products. These are
  what the Eigen expressions in the source compute.
- `Primitives` (primitives.dfy): the numeric library the filter calls. These
  are `sin`, `cos`, `sqrt`, `atan2`, the Cholesky factor `P.llt().matrixL()`
  and `S.inverse()`. They are fields of a record passed in as a parameter, so
  every theorem holds whatever they return, except where a lemma names an
  exactness hypothesis.
- `Angles` (angles.dfy): `UKF::NormalizeAngle`, as written, with its
  truncated step of 6.
- `SigmaPoints` (sigma_points.dfy): the weights from the constructor and
  `UKF::CreateSignmaPoints`. It proves the two facts the unscented transform
  rests on. The weighted mean of the sigma points is the state. The weighted
  covariance is `P` when the Cholesky factor and the square root are exact.
- `Predictor` (predictor.dfy): `UKF::Prediction`. This covers augmentation,
  the CTRV motion of every sigma point, and the predicted mean and covariance.
- `Updaters` (updaters.dfy): `UKF::UpdateLidar` and `UKF::UpdateRadar`, with
  the shared Kalman correction and NIS.
- `Filter` (filter.dfy): the `UKF` object, its constructor and the
  `ProcessMeasurement` state machine.

Three behaviours of the source are modelled as written and exhibited by
lemmas:

- `NormalizeAngle` steps by 6 instead of 2π, because `two_pi` is a `long`.
- The radar update corrects with a bearing innovation that is never
  normalised. The call at src/ukf.cpp:368 discards its result.
- On the straight-line branch of the CTRV model, a small nonzero yaw rate
  still turns the heading while the position moves along the old one, so two
  short steps need not compose to one long step.

The spread parameter follows the code: `lambda_ = 3 - n_x_ = -2`
(src/ukf.cpp:69). The usual choice for an augmented state is
`3 - n_aug_`; the code does not use it, and neither does the model.

## Model

| member | source | states |
|---|---|---|
| Angles.TwoPiTruncatedIsSix | src/ukf.cpp:380 | `two_pi` is a `long`, so `2 * M_PI` becomes 6, which is strictly less than 2π |
| Angles.Turns | src/ukf.cpp:382-384 | the loop body runs at least once exactly when the angle's magnitude exceeds π |
| Angles.NormalizedAngle | src/ukf.cpp:378-387 | the result lies in [-π, π]; an angle already in range comes back unchanged; otherwise the result is `phi` moved by a positive whole number of steps of `to_add`, and the value one step earlier is still out of range, so the result is the first in-range value the loop reaches |
| Angles.NormalizeAngle | src/ukf.cpp:378-387 | the loop as written (step 6 towards zero while the magnitude exceeds π) terminates and returns `NormalizedAngle(phi)` |
| Angles.TurnsOfLoop | src/ukf.cpp:382-384 | a loop that stops at the first in-range value has run exactly `Turns(phi)` times |
| Angles.NormalizeAngleIdempotent | src/ukf.cpp:378-387 | normalising an already normalised angle changes nothing |
| Angles.NormalizeAngleLosesTurns | src/ukf.cpp:380-384 | 4 rad normalises to -2, which is not 4 plus any whole number of turns of 2π |
| SigmaPoints.Weights | src/ukf.cpp:67-73 | with `lambda_ = -2` and `n_aug_ = 7` there are 15 weights: -2/5 first, then fourteen of 1/10 |
| SigmaPoints.WeightsSumToOne | src/ukf.cpp:67-73 | the weights sum to exactly one |
| SigmaPoints.SpreadPoints | src/ukf.cpp:393-396 | the `i`-th spread point differs from the state, in component `j`, by `sign * c * L[j][i]` |
| SigmaPoints.CreateSigmaPoints | src/ukf.cpp:389-398 | there are `2k + 1` points of dimension `k`; the first is the state; pair `i` is `state ± sqrt(lambda_ + k) * L.col(i)`, mirrored about the state |
| SigmaPoints.SigmaPointsWeightedMean | src/ukf.cpp:389-398 | for any weights whose sum `w0 + 2k * w` is one, the weighted mean of the sigma points is the state, whatever `L` and the spread constant are |
| SigmaPoints.WeightedMeanOfSigmaPoints | src/ukf.cpp:389-398 | with the filter's own weights, the weighted mean of the 15 augmented sigma points is the augmented state |
| SigmaPoints.DeviationsOfMirrored | src/ukf.cpp:393-396 | the deviations of mirrored points from their state are zero for the first point and `±c * L.col(i)` for pair `i` |
| SigmaPoints.SymmetricOuterSum | src/ukf.cpp:393-396 | when `2 * w * c² = 1`, entry `(a, b)` of the weighted covariance of mirrored deviations is row `a` of `L` dotted with row `b` |
| SigmaPoints.CovarianceEntry | src/ukf.cpp:389-398 | for weights `UnscentedWeights(w0, w, k)` with `2 * w * c² = 1`, entry `(a, b)` of the weighted covariance of the sigma points about the state is entry `(a, b)` of `L * L^T` |
| SigmaPoints.SigmaPointsWeightedCovariance | src/ukf.cpp:389-398 | when `L * L^T = P` and `2 * w * c² = 1`, the weighted covariance of the sigma points about the state is exactly `P` |
| SigmaPoints.WeightedCovarianceOfSigmaPoints | src/ukf.cpp:389-398 | with the filter's weights, an exact Cholesky factor and `sqrt(5)² = 5`, the weighted covariance of the 15 augmented sigma points is the augmented covariance |
| Predictor.AugmentedMean | src/ukf.cpp:147-150 | the augmented state is the state followed by two zero noise means |
| Predictor.AugmentedCovariance | src/ukf.cpp:153-157 | the augmented covariance is `P` in the top-left corner, `std_a_²` and `std_yawdd_²` on the rest of the diagonal, and zero elsewhere in the last two rows and columns |
| Predictor.AugmentedCovarianceSymmetric | src/ukf.cpp:153-157 | a symmetric `P` gives a symmetric augmented covariance |
| Predictor.Displacement | src/ukf.cpp:179-186 | over zero time both the arc branch and the straight-line branch give zero displacement |
| Predictor.PredictSigmaPoint | src/ukf.cpp:166-203 | over zero time the point keeps its state part, in either branch and whatever the noise; with zero longitudinal noise the speed is kept; with zero yaw noise the yaw rate is kept and the yaw advances by `yawd * dt` |
| Predictor.NoiseFreeStep | src/ukf.cpp:166-203 | the augmented mean, whose noise terms are zero, moves by the noise-free CTRV motion |
| Predictor.DisplacementComposes | src/ukf.cpp:179-186 | on the arc, and on the line with zero yaw rate, the displacement over `dt1 + dt2` is the displacement over `dt1` plus the displacement over `dt2` from the heading reached after `dt1` |
| Predictor.FlowComposes | src/ukf.cpp:179-189 | on the arc, and on the line with zero yaw rate, the noise-free CTRV motion over `dt1` and then `dt2` equals the motion over `dt1 + dt2` |
| Predictor.LineStepTurnsHeading | src/ukf.cpp:183-188 | on the straight-line branch, the position moves by `v * dt` along the old heading, yet a nonzero yaw rate at or below `nearZero_` still turns the heading over a nonzero time |
| Predictor.LineStepBreaksFlow | src/ukf.cpp:183-188 | consequently two straight-line steps of one second need not land where one two-second step does: with identity sine and cosine, `(0, 0, 1, 0, 0.5)` and `nearZero_ = 1` end at `py = 0.5` after two one-second steps but at `py = 0` after one two-second step |
| Predictor.PredictSigmaPoints | src/ukf.cpp:165-204 | `Xsig_pred_` holds one moved point per augmented sigma point, in order |
| Predictor.YawNormalized | src/ukf.cpp:213-214 | the yaw difference is brought into [-π, π]; every other component, and a yaw difference already in range, is unchanged |
| Predictor.StateDeviations | src/ukf.cpp:211-215 | deviation `i` is the yaw-normalised difference between point `i` and the mean |
| Predictor.Predict | src/ukf.cpp:136-220 | the prediction yields a 5-state, a 5-by-5 covariance and 15 predicted sigma points, and the predicted covariance is symmetric whatever the sigma points are |
| Predictor.PredictOverNoTimeKeepsState | src/ukf.cpp:136-208 | a prediction over zero seconds leaves the state estimate unchanged |
| Predictor.NoTimeDeviations | src/ukf.cpp:210-216 | over zero time, if no yaw spread exceeds π, the deviations the covariance sums are those of the augmented sigma points |
| Predictor.PredictOverNoTimeKeepsCovariance | src/ukf.cpp:136-220 | a prediction over zero seconds leaves the covariance unchanged, given an exact Cholesky factor, `sqrt(5)² = 5` and no yaw spread beyond π |
| Updaters.PredictedMeasurement | src/ukf.cpp:247-251 | `z_pred` has one component per measured quantity |
| Updaters.InnovationCovariance | src/ukf.cpp:254-265 | `S` is square of the measurement dimension, and it is symmetric whenever `R` is, whatever the deviations |
| Updaters.CrossCovariance | src/ukf.cpp:270-277 | `Tc` has one row per state component and one column per measured quantity |
| Updaters.Correct | src/ukf.cpp:279-286 | the correction records the innovation it used; a zero innovation leaves the state unchanged and has an NIS of zero, whatever the inverse returns |
| Updaters.LidarProjections | src/ukf.cpp:240-245 | each projected point is the position `(px, py)` of its sigma point |
| Updaters.LidarNoise | src/ukf.cpp:262-264 | the laser `R` is a symmetric 2-by-2 matrix |
| Updaters.UpdateLidar | src/ukf.cpp:226-288 | the laser update corrects by the innovation `z - z_pred` with nothing normalised |
| Updaters.LidarPredictionIsPosition | src/ukf.cpp:247-251 | the laser's predicted measurement is the position part of the weighted mean of the predicted sigma points |
| Updaters.LidarAtPredictionKeepsState | src/ukf.cpp:279-286 | a laser measurement exactly at the predicted position leaves the state unchanged, with an NIS of zero |
| Updaters.RadarProjection | src/ukf.cpp:310-323 | range is `sqrt(px² + py²)` and bearing is `atan2(py, px)`; where the range is nonzero, range times range rate is `px * v * cos(yaw) + py * v * sin(yaw)` |
| Updaters.RadarProjections | src/ukf.cpp:310-323 | each projected point is the radar view of its sigma point |
| Updaters.BearingNormalized | src/ukf.cpp:334-335 | the bearing difference is brought into [-π, π]; range and range rate differences, and a bearing already in range, are unchanged |
| Updaters.BearingDeviations | src/ukf.cpp:333-336 | deviation `i` is the bearing-normalised difference between projected point `i` and `z_pred` |
| Updaters.RadarNoise | src/ukf.cpp:340-344 | the radar `R` is a symmetric 3-by-3 matrix |
| Updaters.UpdateRadar | src/ukf.cpp:294-376 | the radar update corrects by the raw innovation `z - z_pred`, its bearing not normalised |
| Updaters.RadarInnovationUnwrapped | src/ukf.cpp:365-370 | a bearing innovation beyond π is used as it is, not wrapped into range |
| Updaters.RadarAtPredictionKeepsState | src/ukf.cpp:364-374 | a radar measurement equal to the predicted measurement leaves the state unchanged, with an NIS of zero |
| Filter.Initial | src/ukf.cpp:14-74 | a new filter is uninitialised, uses both sensors, has a zero state and an identity covariance, has weights that sum to one, and carries the noise deviations 3, 1.5, 0.15, 0.15, 0.3, 0.03 and 0.3 |
| Filter.Initialise | src/ukf.cpp:90-107 | the first measurement sets the position: from an enabled laser directly, from an enabled radar via `rho * cos(phi)` and `rho * sin(phi)`; a disabled sensor leaves the state alone; speed, yaw, yaw rate and the covariance are kept, and the timestamp is stored |
| Filter.ElapsedSeconds | src/ukf.cpp:113 | the elapsed time is non-negative exactly when the timestamps do not go backwards |
| Filter.ElapsedSecondsAdd | src/ukf.cpp:113-114 | elapsed times over consecutive measurements add up |
| Filter.PredictStep | src/ukf.cpp:117 | a prediction changes only `x_`, `P_` and `Xsig_pred_`, and leaves all 15 predicted sigma points in place |
| Filter.LaserStep | src/ukf.cpp:120-123 | a laser update changes only `x_`, `P_` and `NIS_lidar_` |
| Filter.RadarStep | src/ukf.cpp:124-127 | a radar update changes only `x_`, `P_` and `NIS_radar_` |
| Filter.ProcessMeasurement | src/ukf.cpp:82-129 | every measurement leaves the filter initialised at the measurement's timestamp, with its configuration unchanged; the first only initialises; each later one predicts over `dt = (timestamp - time_us_) / 1e6` seconds, then runs the laser update for an enabled laser reading, the radar update for an enabled radar reading, and no update otherwise, so a sensor's NIS changes only on its own enabled readings |
| Filter.FirstLaserMeasurement | src/ukf.cpp:90-107 | a new filter's first laser measurement gives the state `(px, py, 0, 0, 0)` with the identity covariance |
| Filter.FirstRadarMeasurement | src/ukf.cpp:97-107 | a new filter's first radar measurement gives the position `(rho * cos(phi), rho * sin(phi))` at rest, with the identity covariance; the range rate is ignored |
| Filter.RepeatedTimestampFromDisabledSensorKeepsState | src/ukf.cpp:113-128 | a measurement from a disabled sensor with the previous timestamp leaves the state estimate unchanged |

## Left out

- Floating point: every quantity is an exact real. This leaves out double rounding, and the narrowing of `dt`, `rho`, `phi` and `rho_dot` to `float` (src/ukf.cpp:99-101, 113).
- Angles.NormalizeAngle: termination and the iteration count `Turns(phi)` hold for exact reals only. In double arithmetic, adding ±6 no longer changes `phi` once |phi| is greater than 2^56, and it never changes an infinite `phi`; for such inputs the loop at src/ukf.cpp:382-384 does not end. For large finite inputs it also runs about |phi|/6 times.
- `M_PI` is taken at the value of its decimal literal, not its double rounding.
- IEEE division by zero is left out. The radar range rate at zero range is whatever the library's quotient returns.
- `sin`, `cos`, `sqrt`, `atan2`, `P.llt().matrixL()` and `S.inverse()` are parameters with only their shapes known. What they compute is not modelled. The covariance lemmas state exactness as a hypothesis.
- `ukf.h` is not part of this model. `lambda_` is taken as a double: integer division would make the first weight 0. `nearZero_` is a positive parameter, since its value is not visible.
- The constructor does not set `time_us_`, `NIS_lidar_`, `NIS_radar_` or `Xsig_pred_`. The model starts them at 0 and empty.
- Console output (`cout`) is left out.
- The `num_sig` parameter of `CreateSignmaPoints` is left out. The source always passes `2 * state_size + 1`.
- Updaters.Correct: does not state that `P - K * S * K^T` is symmetric or positive semi-definite, only its shape.
- Updaters.UpdateLidar: states only the innovation and the shapes. The Kalman step itself is `Correct`.
- Updaters.UpdateRadar: states only the innovation and the shapes. The Kalman step itself is `Correct`.
- Predictor.Predict: states shape and symmetry. It does not state positive semi-definiteness, or the mean and covariance over a nonzero time, which depend on the trigonometric library.
- The NIS statistics (chi-squared consistency) are left out, as are the measurement package's `sensor_type_` encoding and the tools and main program around the filter.

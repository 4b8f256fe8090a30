/** The filter object `UKF` (constructor at src/ukf.cpp:14-74) and its entry
    point `UKF::ProcessMeasurement` (src/ukf.cpp:82-129): the first measurement
    only initialises the position; every later one predicts over the elapsed
    time and then corrects with the measurement if its sensor is enabled. */
module Filter {
  import opened LinearAlgebra
  import opened Primitives
  import opened SigmaPoints
  import opened Predictor
  import opened Updaters

  /** The raw measurement of a `MeasurementPackage`, by sensor type. */
  datatype Reading =
    | Laser(px: real, py: real)
    | Radar(rho: real, phi: real, rhoDot: real)

  /** `MeasurementPackage`: a reading and its timestamp in microseconds. */
  datatype MeasurementPackage = MeasurementPackage(reading: Reading, timestamp: int)

  /** The members of `UKF` the filter reads or writes. */
  datatype Ukf = Ukf(
    isInitialized: bool,
    useLaser: bool,
    useRadar: bool,
    x: Vector,
    P: Matrix,
    xsigPred: seq<Vector>,
    timeUs: int,
    nisLidar: real,
    nisRadar: real,
    weights: seq<real>,
    stdA: real,
    stdYawdd: real,
    stdLaspx: real,
    stdLaspy: real,
    stdRadr: real,
    stdRadphi: real,
    stdRadrd: real,
    nearZero: PosReal)

  /** The shapes every filter keeps: a 5-state, a 5-by-5 covariance, the fixed
      weights, and either no predicted sigma points yet or all 15 of them. */
  predicate Valid(u: Ukf) {
    && |u.x| == NX
    && IsMatrix(u.P, NX, NX)
    && u.weights == Weights()
    && AllOfLength(u.xsigPred, NX)
    && (|u.xsigPred| == 0 || |u.xsigPred| == NSigma)
  }

  /** `UKF::UKF()`: both sensors enabled, a zero state, an identity covariance,
      the process and sensor noise deviations, and weights that sum to one.
      The timestamp, the NIS values and the predicted sigma points are not set
      by the constructor; they start here as zero and empty. */
  function Initial(nearZero: PosReal): (u: Ukf)
    ensures Valid(u) && !u.isInitialized && u.useLaser && u.useRadar
    ensures u.x == Zero(NX) && u.P == Identity(NX)
    ensures Sum(u.weights) == 1.0
    ensures u.stdA == 3.0 && u.stdYawdd == 1.5
    ensures u.stdLaspx == 0.15 && u.stdLaspy == 0.15
    ensures u.stdRadr == 0.3 && u.stdRadphi == 0.03 && u.stdRadrd == 0.3
  {
    WeightsSumToOne();
    Ukf(false, true, true, Zero(NX), Identity(NX), [], 0, 0.0, 0.0, Weights(),
        3.0, 1.5, 0.15, 0.15, 0.3, 0.03, 0.3, nearZero)
  }

  /** Whether the filter takes measurements of this sensor type. */
  predicate Enabled(u: Ukf, r: Reading) {
    (r.Laser? && u.useLaser) || (r.Radar? && u.useRadar)
  }

  /** The first measurement: an enabled laser sets the position to its
      reading, an enabled radar to the polar-to-Cartesian conversion of its
      reading, a disabled sensor leaves the state alone; either way the filter
      is initialised at the measurement's timestamp. */
  function Initialise(u: Ukf, m: MeasurementPackage, lib: Library): (v: Ukf)
    requires Valid(u)
    ensures Valid(v) && v.isInitialized && v.timeUs == m.timestamp
    ensures v.x[2..] == u.x[2..]
    ensures v.P == u.P && v.xsigPred == u.xsigPred && v.nisLidar == u.nisLidar && v.nisRadar == u.nisRadar
    ensures m.reading.Laser? && u.useLaser ==> v.x[0] == m.reading.px && v.x[1] == m.reading.py
    ensures m.reading.Radar? && u.useRadar ==>
              v.x[0] == m.reading.rho * lib.cos(m.reading.phi) && v.x[1] == m.reading.rho * lib.sin(m.reading.phi)
    ensures !Enabled(u, m.reading) ==> v.x == u.x
  {
    var x :=
      match m.reading
      case Laser(px, py) =>
        if u.useLaser then u.x[0 := px][1 := py] else u.x
      case Radar(rho, phi, _) =>
        if u.useRadar then u.x[0 := rho * lib.cos(phi)][1 := rho * lib.sin(phi)] else u.x;
    u.(isInitialized := true, timeUs := m.timestamp, x := x)
  }

  /** `dt`: the time from `t0` to `t1` microseconds, in seconds. */
  function ElapsedSeconds(t0: int, t1: int): (dt: real)
    ensures t0 <= t1 <==> dt >= 0.0
  {
    (t1 - t0) as real / 1000000.0
  }

  /** Elapsed times add up along a sequence of timestamps. */
  lemma ElapsedSecondsAdd(t0: int, t1: int, t2: int)
    ensures ElapsedSeconds(t0, t1) + ElapsedSeconds(t1, t2) == ElapsedSeconds(t0, t2)
  {
  }

  /** `UKF::Prediction(dt)` on the filter: `x_`, `P_` and `Xsig_pred_` change,
      nothing else does. */
  function PredictStep(u: Ukf, dt: real, lib: Library): (v: Ukf)
    requires Valid(u)
    ensures Valid(v) && |v.xsigPred| == NSigma
    ensures v == u.(x := v.x, P := v.P, xsigPred := v.xsigPred)
  {
    var p := Predict(u.x, u.P, dt, u.stdA, u.stdYawdd, u.nearZero, lib);
    u.(x := p.x, P := p.P, xsigPred := p.sigmaPoints)
  }

  /** `UKF::UpdateLidar`: `x_`, `P_` and `NIS_lidar_` change, nothing else does. */
  function LaserStep(u: Ukf, px: real, py: real, lib: Library): (v: Ukf)
    requires Valid(u) && |u.xsigPred| == NSigma
    ensures Valid(v) && v == u.(x := v.x, P := v.P, nisLidar := v.nisLidar)
  {
    var c := UpdateLidar(u.x, u.P, u.xsigPred, [px, py], u.stdLaspx, u.stdLaspy, lib);
    u.(x := c.x, P := c.P, nisLidar := c.nis)
  }

  /** `UKF::UpdateRadar`: `x_`, `P_` and `NIS_radar_` change, nothing else does. */
  function RadarStep(u: Ukf, rho: real, phi: real, rhoDot: real, lib: Library): (v: Ukf)
    requires Valid(u) && |u.xsigPred| == NSigma
    ensures Valid(v) && v == u.(x := v.x, P := v.P, nisRadar := v.nisRadar)
  {
    var c := UpdateRadar(u.x, u.P, u.xsigPred, [rho, phi, rhoDot], u.stdRadr, u.stdRadphi, u.stdRadrd, lib);
    u.(x := c.x, P := c.P, nisRadar := c.nis)
  }

  /** `UKF::ProcessMeasurement`. The first measurement only initialises the
      filter. Every later one stores its timestamp, always predicts over the
      elapsed time, and then runs the laser or radar update if, and only if,
      its sensor is enabled. */
  function ProcessMeasurement(u: Ukf, m: MeasurementPackage, lib: Library): (v: Ukf)
    requires Valid(u)
    ensures Valid(v) && v.isInitialized && v.timeUs == m.timestamp
    // The configuration never changes.
    ensures v.useLaser == u.useLaser && v.useRadar == u.useRadar && v.weights == u.weights
    ensures v.stdA == u.stdA && v.stdYawdd == u.stdYawdd && v.nearZero == u.nearZero
    ensures v.stdLaspx == u.stdLaspx && v.stdLaspy == u.stdLaspy
    ensures v.stdRadr == u.stdRadr && v.stdRadphi == u.stdRadphi && v.stdRadrd == u.stdRadrd
    // The first measurement neither predicts nor updates.
    ensures !u.isInitialized ==> v == Initialise(u, m, lib)
    // Every later one predicts ...
    ensures u.isInitialized ==> |v.xsigPred| == NSigma
    // ... and touches only the NIS of the sensor it came from, if that sensor is enabled.
    ensures u.isInitialized && !(m.reading.Laser? && u.useLaser) ==> v.nisLidar == u.nisLidar
    ensures u.isInitialized && !(m.reading.Radar? && u.useRadar) ==> v.nisRadar == u.nisRadar
    // Precisely: prediction runs over the elapsed time since the stored
    // timestamp, followed by the update of the measurement's sensor exactly
    // when that sensor is enabled.
    ensures u.isInitialized && !Enabled(u, m.reading) ==>
              v == PredictStep(u.(timeUs := m.timestamp), ElapsedSeconds(u.timeUs, m.timestamp), lib)
    ensures u.isInitialized && m.reading.Laser? && u.useLaser ==>
              v == LaserStep(PredictStep(u.(timeUs := m.timestamp), ElapsedSeconds(u.timeUs, m.timestamp), lib),
                             m.reading.px, m.reading.py, lib)
    ensures u.isInitialized && m.reading.Radar? && u.useRadar ==>
              v == RadarStep(PredictStep(u.(timeUs := m.timestamp), ElapsedSeconds(u.timeUs, m.timestamp), lib),
                             m.reading.rho, m.reading.phi, m.reading.rhoDot, lib)
  {
    if !u.isInitialized then
      Initialise(u, m, lib)
    else
      var dt := ElapsedSeconds(u.timeUs, m.timestamp);
      var w := PredictStep(u.(timeUs := m.timestamp), dt, lib);
      match m.reading
      case Laser(px, py) =>
        if u.useLaser then LaserStep(w, px, py, lib) else w
      case Radar(rho, phi, rhoDot) =>
        if u.useRadar then RadarStep(w, rho, phi, rhoDot, lib) else w
  }

  /** A freshly constructed filter's first laser measurement puts the filter
      at the measured position, at rest, with the identity covariance. */
  lemma FirstLaserMeasurement(nearZero: PosReal, px: real, py: real, t: int, lib: Library)
    ensures var v := ProcessMeasurement(Initial(nearZero), MeasurementPackage(Laser(px, py), t), lib);
            && v.isInitialized && v.timeUs == t
            && v.x == [px, py, 0.0, 0.0, 0.0] && v.P == Identity(NX)
  {
    var v := ProcessMeasurement(Initial(nearZero), MeasurementPackage(Laser(px, py), t), lib);
    assert v.x[2..] == Zero(NX)[2..];
  }

  /** A freshly constructed filter's first radar measurement puts the filter
      at the Cartesian position of the measured range and bearing, at rest,
      with the identity covariance; the range rate is not used. */
  lemma FirstRadarMeasurement(nearZero: PosReal, rho: real, phi: real, rhoDot: real, t: int, lib: Library)
    ensures var v := ProcessMeasurement(Initial(nearZero), MeasurementPackage(Radar(rho, phi, rhoDot), t), lib);
            && v.isInitialized && v.timeUs == t
            && |v.x| == NX && v.x[0] == rho * lib.cos(phi) && v.x[1] == rho * lib.sin(phi)
            && v.x[2..] == [0.0, 0.0, 0.0] && v.P == Identity(NX)
  {
    var v := ProcessMeasurement(Initial(nearZero), MeasurementPackage(Radar(rho, phi, rhoDot), t), lib);
    assert v.x[2..] == Zero(NX)[2..];
  }

  /** A measurement from a disabled sensor that arrives at the same timestamp
      as the previous one leaves the state estimate where it was: the filter
      predicts over zero seconds and does not update. */
  lemma RepeatedTimestampFromDisabledSensorKeepsState(u: Ukf, m: MeasurementPackage, lib: Library)
    requires Valid(u) && u.isInitialized && m.timestamp == u.timeUs && !Enabled(u, m.reading)
    ensures ProcessMeasurement(u, m, lib).x == u.x
  {
    PredictOverNoTimeKeepsState(u.x, u.P, u.stdA, u.stdYawdd, u.nearZero, lib);
  }
}

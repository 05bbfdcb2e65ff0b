/**
 * One axis of the tracker: a scalar robust adaptive Kalman filter whose state
 * the source keeps in instance fields and whose sample windows are arrays of
 * length estimatorParameterCount, rolled on every step.
 */
module Axis {
  import opened Wrappers
  import opened Equations
  import Window

  /** The model type under which velocity and acceleration windows are kept. */
  const UwbImu: string := "uwb_imu"

  /** One call's inputs: measurement, timestamp in milliseconds, velocity and acceleration. */
  datatype Sample = Sample(measurement: real, timestampMs: real, velocity: real, acceleration: real)

  /**
   * The fields and window contents of a filter that a step reads, as one
   * value: the previous time, state and variance, and the measurement,
   * weight, position, velocity and acceleration windows.
   */
  datatype Snap = Snap(timePrevious: real, stateModel: real, stateErrorVariance: real,
                       measurements: seq<real>, weights: seq<real>, positions: seq<real>,
                       velocities: seq<real>, accelerations: seq<real>)

  /** The intermediate values a filter keeps from its last step (all absent before the first). */
  datatype Trace = Trace(prediction: Option<real>, variancePrediction: Option<real>,
                         measurementPrediction: Option<real>, residual: Option<real>,
                         residualDash: Option<real>, weight: Option<real>, estimation: Option<real>,
                         delta: Option<real>, factor: Option<real>, gain: Option<real>)

  /**
   * A weighted least-squares problem: observations `endog`, the observation
   * matrix given by its columns (each one entry per window slot), per-slot
   * weights, and the row at which the fitted model is evaluated.
   */
  datatype Regression = Regression(endog: seq<real>, columns: seq<seq<real>>, weights: seq<real>, query: seq<real>)

  /** Fitting a regression and predicting at its query row; supplied at construction. */
  type Wls = Regression -> real

  /** The regression without inertial data: a single position column, evaluated at the newest position. */
  function PositionRegression(meas: seq<real>, pos: seq<real>, weights: seq<real>): (g: Regression)
    requires |pos| > 0
    ensures g.endog == meas && g.weights == weights && |g.columns| == 1 && g.columns[0] == pos
    ensures |g.query| == |g.columns| && forall j :: 0 <= j < |g.columns| ==> g.query[j] == g.columns[j][|pos| - 1]
  {
    Regression(meas, [pos], weights, [pos[|pos| - 1]])
  }

  /** The regression with inertial data: position, velocity and acceleration columns, evaluated at the newest row. */
  function ImuRegression(meas: seq<real>, pos: seq<real>, vel: seq<real>, acc: seq<real>, weights: seq<real>): (g: Regression)
    requires |pos| > 0 && |vel| == |pos| && |acc| == |pos|
    ensures g.endog == meas && g.weights == weights && g.columns == [pos, vel, acc]
    ensures |g.query| == |g.columns| && forall j :: 0 <= j < |g.columns| ==> g.query[j] == g.columns[j][|pos| - 1]
  {
    var n := |pos|;
    Regression(meas, [pos, vel, acc], weights, [pos[n - 1], vel[n - 1], acc[n - 1]])
  }

  class Rakf1D {
    // fixed at construction
    const modelType: string
    const systemModel: real                  // A
    const systemModelError: real             // Q
    ghost const measurementError: real       // variance of the measurement error
    const measurementStandardDeviation: real // its square root
    const residualThreshold: real            // c
    const adaptiveThreshold: real            // c0
    const gamma: real
    const estimatorParameterCount: nat       // N, the window length
    /** The weighted least-squares fit and prediction the filter calls on its windows. */
    const fit: Wls

    // the windows (velocity and acceleration only under "uwb_imu")
    const measurementBuffer: array<real>
    const residualWeightBuffer: array<real>
    const positionBuffer: array<real>
    const velocityBuffer: array?<real>
    const accelerationBuffer: array?<real>
    ghost const Repr: set<object>

    // state, rewritten by every step; the intermediate values start absent
    var timePrevious: real
    var stateModelPrediction: Option<real>
    var stateModel: real
    var measurementPrediction: Option<real>
    var residualWeight: Option<real>
    var residualMeasurement: Option<real>
    var residualMeasurementDash: Option<real>
    var stateErrorVariancePrediction: Option<real>
    var stateErrorVariance: real
    var stateEstimation: Option<real>
    var deltaStateEstimate: Option<real>
    var gain: Option<real>
    var adaptiveFactor: Option<real>

    predicate IsImu() { modelType == UwbImu }

    ghost predicate Valid()
    {
      positionBuffer.Length == estimatorParameterCount
      && measurementBuffer.Length == estimatorParameterCount
      && residualWeightBuffer.Length == estimatorParameterCount
      && positionBuffer != measurementBuffer && positionBuffer != residualWeightBuffer
      && measurementBuffer != residualWeightBuffer
      && (velocityBuffer != null <==> IsImu())
      && (accelerationBuffer != null <==> IsImu())
      && (IsImu() ==>
            velocityBuffer.Length == estimatorParameterCount
            && accelerationBuffer.Length == estimatorParameterCount
            && velocityBuffer != accelerationBuffer
            && velocityBuffer !in {positionBuffer, measurementBuffer, residualWeightBuffer}
            && accelerationBuffer !in {positionBuffer, measurementBuffer, residualWeightBuffer})
      && Repr == {this, positionBuffer, measurementBuffer, residualWeightBuffer} + ImuWindows()
      && measurementStandardDeviation > 0.0
      && measurementStandardDeviation * measurementStandardDeviation == measurementError
    }

    ghost function ImuWindows(): set<object>
    {
      if velocityBuffer != null && accelerationBuffer != null
      then {velocityBuffer, accelerationBuffer} else {}
    }

    /** The filter's fixed parameters as one value. */
    function Tune(): Tuning
    {
      Tuning(systemModel, systemModelError, measurementStandardDeviation,
             residualThreshold, adaptiveThreshold, gamma)
    }

    /**
     * The fields and window contents a step reads, as one value; the
     * velocity and acceleration windows are empty unless "uwb_imu".
     */
    ghost function Snapshot(): (b: Snap)
      reads this, Repr
      requires Valid()
      ensures Fits(b)
    {
      Snap(timePrevious, stateModel, stateErrorVariance,
           measurementBuffer[..], residualWeightBuffer[..], positionBuffer[..],
           if IsImu() then velocityBuffer[..] else [], if IsImu() then accelerationBuffer[..] else [])
    }

    /** b has this filter's window lengths. */
    ghost predicate Fits(b: Snap)
    {
      |b.measurements| == estimatorParameterCount && |b.weights| == estimatorParameterCount
      && |b.positions| == estimatorParameterCount
      && (IsImu() ==> |b.velocities| == estimatorParameterCount && |b.accelerations| == estimatorParameterCount)
    }

    /**
     * The regression a step from b on sample s fits: the windows after the
     * sample is written in (the position window receives the state before
     * this step's update), with the weight window as it was before this step.
     */
    ghost function Design(b: Snap, s: Sample): (g: Regression)
      requires Fits(b) && estimatorParameterCount > 0
      ensures g.endog == Window.ShiftIn(b.measurements, s.measurement)
      ensures g.weights == b.weights
      ensures |g.columns| > 0 && g.columns[0] == Window.ShiftIn(b.positions, b.stateModel)
      ensures |g.query| > 0 && g.query[0] == b.stateModel
    {
      var pos := Window.ShiftIn(b.positions, b.stateModel);
      var meas := Window.ShiftIn(b.measurements, s.measurement);
      if IsImu() then
        ImuRegression(meas, pos, Window.ShiftIn(b.velocities, s.velocity),
                      Window.ShiftIn(b.accelerations, s.acceleration), b.weights)
      else
        PositionRegression(meas, pos, b.weights)
    }

    /** Every division of a step from b on sample s is defined, and the windows are not empty. */
    ghost predicate CanStep(b: Snap, s: Sample)
      requires Fits(b)
    {
      estimatorParameterCount > 0
      && StepDefined(Tune(), b.stateModel, b.stateErrorVariance, TimeDelta(b.timePrevious, s.timestampMs),
                     s.measurement, s.velocity, s.acceleration, fit(Design(b, s)))
    }

    /** The values a step from b on sample s computes. */
    ghost function StepFrom(b: Snap, s: Sample): Update
      requires Fits(b) && CanStep(b, s)
    {
      Step(Tune(), b.stateModel, b.stateErrorVariance, TimeDelta(b.timePrevious, s.timestampMs),
           s.measurement, s.velocity, s.acceleration, fit(Design(b, s)))
    }

    /** The next step on sample s is defined. */
    ghost predicate CanRun(s: Sample)
      reads this, Repr
      requires Valid()
    {
      CanStep(Snapshot(), s)
    }

    /**
     * The state of a filter that has not stepped yet: no previous call
     * (time -1), no intermediate values, zero measurement, position (and
     * under "uwb_imu" velocity and acceleration) windows, and a weight
     * window of ones.
     */
    ghost predicate Initial()
      reads this, Repr
      requires Valid()
    {
      timePrevious == -1.0
      && stateModelPrediction == None && measurementPrediction == None && residualWeight == None
      && residualMeasurement == None && residualMeasurementDash == None
      && stateErrorVariancePrediction == None && stateEstimation == None
      && deltaStateEstimate == None && gain == None && adaptiveFactor == None
      && measurementBuffer[..] == seq(estimatorParameterCount, _ => 0.0)
      && positionBuffer[..] == seq(estimatorParameterCount, _ => 0.0)
      && residualWeightBuffer[..] == seq(estimatorParameterCount, _ => 1.0)
      && (IsImu() ==> velocityBuffer[..] == seq(estimatorParameterCount, _ => 0.0)
                      && accelerationBuffer[..] == seq(estimatorParameterCount, _ => 0.0))
    }

    /** The intermediate values the fields hold. */
    ghost function Recorded(): Trace
      reads this
    {
      Trace(stateModelPrediction, stateErrorVariancePrediction, measurementPrediction, residualMeasurement,
            residualMeasurementDash, residualWeight, stateEstimation, deltaStateEstimate, adaptiveFactor, gain)
    }

    /**
     * The state after a step from b on sample s: the clock holds the
     * sample's timestamp, the state and variance are the ones `Step`
     * computes, and each window has the newest value shifted in (the
     * position window the state before the step, the weight window this
     * step's weight).
     */
    ghost function Advance(b: Snap, s: Sample): (a: Snap)
      requires Fits(b) && CanStep(b, s)
      ensures Fits(a)
    {
      var u := StepFrom(b, s);
      Snap(s.timestampMs, u.state, u.variance,
           Window.ShiftIn(b.measurements, s.measurement), Window.ShiftIn(b.weights, u.weight),
           Window.ShiftIn(b.positions, b.stateModel),
           if IsImu() then Window.ShiftIn(b.velocities, s.velocity) else [],
           if IsImu() then Window.ShiftIn(b.accelerations, s.acceleration) else [])
    }

    /** The intermediate values a step from b on sample s leaves: its Update values and the fit. */
    ghost function StepTrace(b: Snap, s: Sample): Trace
      requires Fits(b) && CanStep(b, s)
    {
      var u := StepFrom(b, s);
      Trace(Some(u.prediction), Some(u.variancePrediction), Some(u.measurementPrediction), Some(u.residual),
            Some(u.residualDash), Some(u.weight), Some(fit(Design(b, s))), Some(u.delta), Some(u.factor),
            Some(u.gain))
    }

    /**
     * The filter took one step on sample s from the state b: its fields and
     * windows are `Advance(b, s)`, and its intermediate fields hold the
     * values `Step` computes and the fit of the shifted windows.
     */
    ghost predicate Stepped(b: Snap, s: Sample)
      reads this, Repr
      requires Valid() && Fits(b) && CanStep(b, s)
    {
      Snapshot() == Advance(b, s) && Recorded() == StepTrace(b, s)
    }

    constructor (fit: Wls, initialState: real, systemModel: real, systemModelError: real,
                 measurementError: real, sigma: real, stateErrorVariance: real,
                 residualThreshold: real, adaptiveThreshold: real,
                 estimatorParameterCount: nat := 1, gamma: real := 1.0, modelType: string := UwbImu)
      requires sigma > 0.0 && sigma * sigma == measurementError
      ensures Valid() && fresh(Repr)
      ensures this.modelType == modelType && this.systemModel == systemModel
      ensures this.systemModelError == systemModelError && this.measurementError == measurementError
      ensures this.measurementStandardDeviation == sigma
      ensures this.residualThreshold == residualThreshold && this.adaptiveThreshold == adaptiveThreshold
      ensures this.fit == fit && this.gamma == gamma && this.estimatorParameterCount == estimatorParameterCount
      ensures stateModel == initialState && this.stateErrorVariance == stateErrorVariance
      ensures Initial()
    {
      this.modelType := modelType;
      this.systemModel := systemModel;
      this.systemModelError := systemModelError;
      this.measurementError := measurementError;
      this.measurementStandardDeviation := sigma;
      this.residualThreshold := residualThreshold;
      this.adaptiveThreshold := adaptiveThreshold;
      this.gamma := gamma;
      this.fit := fit;
      this.estimatorParameterCount := estimatorParameterCount;
      timePrevious := -1.0;
      stateModelPrediction := None;
      stateModel := initialState;
      measurementPrediction := None;
      residualWeight := None;
      residualMeasurement := None;
      residualMeasurementDash := None;
      stateErrorVariancePrediction := None;
      this.stateErrorVariance := stateErrorVariance;
      stateEstimation := None;
      deltaStateEstimate := None;
      gain := None;
      adaptiveFactor := None;
      var meas := new real[estimatorParameterCount](_ => 0.0);
      var weights := new real[estimatorParameterCount](_ => 1.0);
      var pos := new real[estimatorParameterCount](_ => 0.0);
      measurementBuffer, residualWeightBuffer, positionBuffer := meas, weights, pos;
      if modelType == UwbImu {
        var vel := new real[estimatorParameterCount](_ => 0.0);
        var acc := new real[estimatorParameterCount](_ => 0.0);
        velocityBuffer, accelerationBuffer := vel, acc;
        Repr := {this, pos, meas, weights, vel, acc};
      } else {
        velocityBuffer, accelerationBuffer := null, null;
        Repr := {this, pos, meas, weights};
      }
    }

    /**
     * One filter step on a measurement: time step, prediction, residual
     * weight, window update, fit, adaptive factor, gain, state and variance.
     * Returns the new state.
     */
    method Run(currentMeasurement: real, timestampMs: real := 0.0,
               velocity: real := 0.0, acceleration: real := 0.0) returns (estimate: real)
      requires Valid()
      requires CanRun(Sample(currentMeasurement, timestampMs, velocity, acceleration))
      modifies Repr
      ensures Valid()
      ensures Stepped(old(Snapshot()), Sample(currentMeasurement, timestampMs, velocity, acceleration))
      ensures estimate == stateModel
      ensures Tuned(Tune()) && old(stateErrorVariance) >= 0.0 ==>
        0.0 < stateErrorVariance < stateErrorVariancePrediction.value
    {
      var s := Sample(currentMeasurement, timestampMs, velocity, acceleration);
      ghost var b := Snapshot();
      var x0, p0 := stateModel, stateErrorVariance;

      // time step
      var timedelta := TimeDelta(timePrevious, timestampMs);
      timePrevious := timestampMs;
      assert StepDefined(Tune(), x0, p0, timedelta, currentMeasurement, velocity, acceleration, fit(Design(b, s)));
      assert Design(Snapshot(), s) == Design(b, s);

      // windows and the fit, eq. 37 (the position window gets the state before this step)
      var est := ShiftWindowsAndFit(s);
      stateEstimation := Some(est);

      // eq. 29 to 42
      var u := Step(Tune(), x0, p0, timedelta, currentMeasurement, velocity, acceleration, est);
      assert u == StepFrom(b, s);
      Record(u);
      if Tuned(Tune()) && p0 >= 0.0 {
        TunedStepContracts(Tune(), x0, p0, timedelta, currentMeasurement, velocity, acceleration, est);
      }

      // the weight window takes this step's weight only after the fit
      Window.Roll(residualWeightBuffer, u.weight);
      estimate := stateModel;
    }

    /** Stores the values of one step in the filter's fields. */
    method Record(u: Update)
      modifies this`stateModelPrediction, this`stateErrorVariancePrediction, this`measurementPrediction,
               this`residualMeasurement, this`residualMeasurementDash, this`residualWeight,
               this`deltaStateEstimate, this`adaptiveFactor, this`gain, this`stateModel, this`stateErrorVariance
      ensures stateModelPrediction == Some(u.prediction)
      ensures stateErrorVariancePrediction == Some(u.variancePrediction)
      ensures measurementPrediction == Some(u.measurementPrediction)
      ensures residualMeasurement == Some(u.residual)
      ensures residualMeasurementDash == Some(u.residualDash)
      ensures residualWeight == Some(u.weight)
      ensures deltaStateEstimate == Some(u.delta)
      ensures adaptiveFactor == Some(u.factor)
      ensures gain == Some(u.gain)
      ensures stateModel == u.state && stateErrorVariance == u.variance
    {
      stateModelPrediction := Some(u.prediction);
      stateErrorVariancePrediction := Some(u.variancePrediction);
      measurementPrediction := Some(u.measurementPrediction);
      residualMeasurement := Some(u.residual);
      residualMeasurementDash := Some(u.residualDash);
      residualWeight := Some(u.weight);
      deltaStateEstimate := Some(u.delta);
      adaptiveFactor := Some(u.factor);
      gain := Some(u.gain);
      stateModel := u.state;
      stateErrorVariance := u.variance;
    }

    /**
     * Writes the pre-update state, the measurement and (under "uwb_imu") the
     * velocity and acceleration into their windows, then fits the regression
     * over the windows with the weights of earlier steps.
     */
    method ShiftWindowsAndFit(s: Sample) returns (est: real)
      requires Valid() && estimatorParameterCount > 0
      modifies positionBuffer, measurementBuffer, velocityBuffer, accelerationBuffer
      ensures est == fit(Design(old(Snapshot()), s))
      ensures positionBuffer[..] == Window.ShiftIn(old(positionBuffer[..]), stateModel)
      ensures measurementBuffer[..] == Window.ShiftIn(old(measurementBuffer[..]), s.measurement)
      ensures IsImu() ==> velocityBuffer[..] == Window.ShiftIn(old(velocityBuffer[..]), s.velocity)
      ensures IsImu() ==> accelerationBuffer[..] == Window.ShiftIn(old(accelerationBuffer[..]), s.acceleration)
    {
      ghost var g := Design(Snapshot(), s);
      Window.Roll(positionBuffer, stateModel);
      Window.Roll(measurementBuffer, s.measurement);
      if IsImu() {
        Window.Roll(velocityBuffer, s.velocity);
        Window.Roll(accelerationBuffer, s.acceleration);
        var design := ImuRegression(measurementBuffer[..], positionBuffer[..], velocityBuffer[..],
                                    accelerationBuffer[..], residualWeightBuffer[..]);
        assert design == g;
        est := fit(design);
      } else {
        var design := PositionRegression(measurementBuffer[..], positionBuffer[..], residualWeightBuffer[..]);
        assert design == g;
        est := fit(design);
      }
    }

    /** The windows are not empty, the tuning is positive and the variance in b is not negative. */
    ghost predicate TunedAt(b: Snap)
    {
      estimatorParameterCount > 0 && Tuned(Tune()) && b.stateErrorVariance >= 0.0
    }

    /**
     * From a tuned state a step is defined on every sample, whatever the
     * fit returns, and leads to a tuned state again: the new variance is
     * positive and below the predicted one.
     */
    lemma TunedStep(b: Snap, s: Sample)
      requires Fits(b) && TunedAt(b)
      ensures CanStep(b, s)
      ensures 0.0 < Advance(b, s).stateErrorVariance < StepFrom(b, s).variancePrediction
      ensures TunedAt(Advance(b, s))
    {
      var est := fit(Design(b, s));
      var dt := TimeDelta(b.timePrevious, s.timestampMs);
      TunedStepContracts(Tune(), b.stateModel, b.stateErrorVariance, dt, s.measurement, s.velocity, s.acceleration, est);
    }
  }
}

/**
 * The scalar equations of one robust adaptive Kalman step, as numbered in the
 * filter's source (eq. 29-42), over exact reals. Each division the source
 * performs without a guard is given a definedness predicate instead.
 */
module Equations {

  /** C in the equations: the state-to-measurement relation, fixed to 1. */
  const StateMeasurementRelation: real := 1.0

  function Abs(x: real): real { if x < 0.0 then -x else x }

  /**
   * Seconds since the previous call. The filter marks "no previous call" with
   * a negative time, and then steps by zero.
   */
  function TimeDelta(timePrevious: real, timestampMs: real): (dt: real)
    ensures timePrevious < 0.0 ==> dt == 0.0
    ensures 0.0 <= timePrevious ==> timePrevious + 1000.0 * dt == timestampMs
    ensures 0.0 <= timePrevious <= timestampMs ==> 0.0 <= dt
  {
    if timePrevious < 0.0 then 0.0 else (timestampMs - timePrevious) / 1000.0
  }

  /** Equation 29: constant-acceleration prediction of the state. */
  function PredictState(a: real, x: real, velocity: real, acceleration: real, dt: real): (pred: real)
    ensures dt == 0.0 ==> pred == a * x
  {
    a * x + velocity * dt + acceleration * (dt * dt) * 0.5
  }

  /** Equation 30: prediction of the state error variance; never below Q for a non-negative variance. */
  function PredictVariance(a: real, p: real, q: real): (pPred: real)
    ensures p >= 0.0 ==> pPred >= q
  {
    a * p * a + q
  }

  /** Equation 33: the residual normalised by the measurement standard deviation. */
  function ResidualDash(r: real, sigma: real): real
    requires sigma > 0.0
  {
    Abs(r / sigma)
  }

  /** The divisions of equations 31/32 are defined. */
  predicate WeightDefined(r: real, sigma: real, c: real, gamma: real)
  {
    sigma > 0.0 && (ResidualDash(r, sigma) <= c || ResidualDash(r, sigma) * 2.0 * gamma != 0.0)
  }

  /**
   * Equations 31/32: the residual weight. A normalised residual up to the
   * threshold c (boundary included) gets the nominal weight 1/sigma; a larger
   * one is down-weighted, never discarded.
   */
  function ResidualWeight(r: real, sigma: real, c: real, gamma: real): (w: real)
    requires WeightDefined(r, sigma, c, gamma)
    ensures c > 0.0 && gamma > 0.0 ==> w > 0.0
  {
    var dash := ResidualDash(r, sigma);
    if dash <= c then 1.0 / sigma
    else OutlierWeight(dash, sigma, c, gamma)
  }

  /** Equation 32: the weight of a normalised residual above the threshold. */
  function OutlierWeight(dash: real, sigma: real, c: real, gamma: real): (w: real)
    requires sigma > 0.0 && dash * 2.0 * gamma != 0.0
  {
    (c / (dash * 2.0 * gamma)) * (1.0 / sigma)
  }

  /** The division of the middle band of equation 38 is defined. */
  predicate FactorDefined(delta: real, c0: real, c: real)
  {
    !(c0 < delta < c) || delta != 0.0
  }

  /**
   * Equation 38: the adaptive factor, by three bands of the (signed)
   * normalised estimate difference delta. delta == c0 and delta >= c both
   * fall into the last band.
   */
  function AdaptiveFactor(delta: real, c0: real, c: real, gamma: real): (alpha: real)
    requires FactorDefined(delta, c0, c)
    ensures c0 > 0.0 && gamma > 0.0 ==> alpha > 0.0
  {
    if delta < c0 then 1.0
    else if c0 < delta < c then c0 / delta * gamma
    else delta * gamma
  }

  /** The divisions of equation 39 are defined. */
  predicate GainDefined(pPred: real, alpha: real, w: real)
  {
    alpha != 0.0 && w != 0.0
    && (1.0 / alpha) * StateMeasurementRelation * pPred * StateMeasurementRelation + 1.0 / w != 0.0
  }

  /** Equation 39: the gain, from the predicted variance, adaptive factor and weight. */
  function Gain(pPred: real, alpha: real, w: real): (k: real)
    requires GainDefined(pPred, alpha, w)
    ensures pPred > 0.0 && alpha > 0.0 && w > 0.0 ==> 0.0 < k < 1.0
  {
    ((1.0 / alpha) * pPred * StateMeasurementRelation)
    / ((1.0 / alpha) * StateMeasurementRelation * pPred * StateMeasurementRelation + 1.0 / w)
  }

  /** Equation 40: the corrected state; the residual left is the fraction 1 - K of r. */
  function CorrectState(pred: real, k: real, r: real): (x: real)
    ensures (pred + r) - x == (1.0 - k) * r
  {
    pred + k * r
  }

  /** Equation 42: the corrected state error variance, below the predicted one for a gain in (0, 1). */
  function CorrectVariance(k: real, pPred: real): (p: real)
    ensures 0.0 < k < 1.0 && pPred > 0.0 ==> 0.0 < p < pPred
  {
    assert 0.0 < k < 1.0 && pPred > 0.0 ==> 0.0 < (1.0 - k) * pPred < pPred by {
      if 0.0 < k < 1.0 && pPred > 0.0 {
        ShrinkByFraction(1.0 - k, pPred);
      }
    }
    (1.0 - k * StateMeasurementRelation) * pPred
  }

  /** The filter's fixed parameters. */
  datatype Tuning = Tuning(
    systemModel: real,        // A
    systemModelError: real,   // Q
    sigma: real,              // square root of the measurement error
    residualThreshold: real,  // c
    adaptiveThreshold: real,  // c0
    gamma: real)

  /** Every intermediate value of one step, in the order the filter computes them. */
  datatype Update = Update(
    prediction: real,          // eq. 29
    variancePrediction: real,  // eq. 30
    measurementPrediction: real, // eq. 35
    residual: real,            // eq. 34
    residualDash: real,        // eq. 33
    weight: real,              // eq. 31/32
    delta: real,               // eq. 36
    factor: real,              // eq. 38
    gain: real,                // eq. 39
    state: real,               // eq. 40
    variance: real)            // eq. 42

  /** Every division of one step is defined, for prior state x, variance p and fit result estimation. */
  predicate StepDefined(t: Tuning, x: real, p: real, dt: real, z: real, v: real, acc: real, estimation: real)
  {
    var pred := PredictState(t.systemModel, x, v, acc, dt);
    var pPred := PredictVariance(t.systemModel, p, t.systemModelError);
    var r := z - StateMeasurementRelation * pred;
    pPred != 0.0 && WeightDefined(r, t.sigma, t.residualThreshold, t.gamma)
    && (var delta := (estimation - pred) / pPred;
        FactorDefined(delta, t.adaptiveThreshold, t.residualThreshold)
        && GainDefined(pPred, AdaptiveFactor(delta, t.adaptiveThreshold, t.residualThreshold, t.gamma),
                       ResidualWeight(r, t.sigma, t.residualThreshold, t.gamma)))
  }

  /**
   * One step of the filter on measurement z, with velocity v, acceleration
   * acc and the value `estimation` that the weighted least-squares fit
   * predicts for the newest window row.
   */
  function Step(t: Tuning, x: real, p: real, dt: real, z: real, v: real, acc: real, estimation: real): (u: Update)
    requires StepDefined(t, x, p, dt, z, v, acc, estimation)
    ensures z - u.state == (1.0 - u.gain) * u.residual
  {
    var pred := PredictState(t.systemModel, x, v, acc, dt);
    var pPred := PredictVariance(t.systemModel, p, t.systemModelError);
    var mPred := StateMeasurementRelation * pred;
    var r := z - mPred;
    var w := ResidualWeight(r, t.sigma, t.residualThreshold, t.gamma);
    var delta := (estimation - pred) / pPred;
    var alpha := AdaptiveFactor(delta, t.adaptiveThreshold, t.residualThreshold, t.gamma);
    var k := Gain(pPred, alpha, w);
    Update(pred, pPred, mPred, r, ResidualDash(r, t.sigma), w, delta, alpha, k,
           CorrectState(pred, k, r), CorrectVariance(k, pPred))
  }

  // ---------------------------------------------------------------- properties

  /**
   * The weight classification in terms of the raw residual: |r| <= c*sigma is
   * trusted at the nominal weight, anything larger gets c/(2*gamma*|r|/sigma)
   * of it.
   */
  lemma WeightClassification(r: real, sigma: real, c: real, gamma: real)
    requires WeightDefined(r, sigma, c, gamma)
    ensures Abs(r) <= c * sigma ==> ResidualWeight(r, sigma, c, gamma) == 1.0 / sigma
    ensures Abs(r) > c * sigma ==>
      ResidualWeight(r, sigma, c, gamma) == (c / (Abs(r) / sigma * 2.0 * gamma)) * (1.0 / sigma)
  {
    assert ResidualDash(r, sigma) == Abs(r) / sigma;
    assert Abs(r) / sigma * sigma == Abs(r);
    if Abs(r) <= c * sigma {
      assert Abs(r) / sigma <= c;
    } else {
      assert Abs(r) / sigma > c;
    }
  }

  /** With positive thresholds and gamma every weight is positive (so its reciprocal exists). */
  lemma WeightPositive(r: real, sigma: real, c: real, gamma: real)
    requires sigma > 0.0 && c > 0.0 && gamma > 0.0
    ensures WeightDefined(r, sigma, c, gamma)
    ensures ResidualWeight(r, sigma, c, gamma) > 0.0
  {
    var dash := ResidualDash(r, sigma);
    if dash > c {
      assert dash * 2.0 * gamma > 0.0;
      assert c / (dash * 2.0 * gamma) > 0.0;
    }
  }

  /**
   * When gamma >= 1/2 a residual above the threshold gets strictly less than
   * the nominal weight 1/sigma, but still a positive one.
   */
  lemma OutlierWeightBelowNominal(r: real, sigma: real, c: real, gamma: real)
    requires sigma > 0.0 && c > 0.0 && gamma >= 0.5
    requires ResidualDash(r, sigma) > c
    ensures WeightDefined(r, sigma, c, gamma)
    ensures 0.0 < ResidualWeight(r, sigma, c, gamma) < 1.0 / sigma
  {
    var dash := ResidualDash(r, sigma);
    WeightPositive(r, sigma, c, gamma);
    var den := dash * 2.0 * gamma;
    assert den >= dash by { ScaleAtLeast(dash, 2.0 * gamma); }
    var q := c / den;
    assert q < 1.0 by { DivBelowOne(c, den); }
    assert ResidualWeight(r, sigma, c, gamma) == q * (1.0 / sigma);
    ShrinkByFraction(q, 1.0 / sigma);
  }

  /** When gamma >= 1/2 a larger residual never gets a larger weight. */
  lemma WeightNonincreasing(r1: real, r2: real, sigma: real, c: real, gamma: real)
    requires sigma > 0.0 && c > 0.0 && gamma >= 0.5
    requires Abs(r1) <= Abs(r2)
    ensures WeightDefined(r1, sigma, c, gamma) && WeightDefined(r2, sigma, c, gamma)
    ensures ResidualWeight(r2, sigma, c, gamma) <= ResidualWeight(r1, sigma, c, gamma)
  {
    assert WeightDefined(r1, sigma, c, gamma) by { WeightPositive(r1, sigma, c, gamma); }
    assert WeightDefined(r2, sigma, c, gamma) by { WeightPositive(r2, sigma, c, gamma); }
    var d1, d2 := ResidualDash(r1, sigma), ResidualDash(r2, sigma);
    assert d1 <= d2 by { DashMonotone(r1, r2, sigma); }
    if d2 <= c {
      assert ResidualWeight(r1, sigma, c, gamma) == ResidualWeight(r2, sigma, c, gamma);
    } else if d1 <= c {
      assert ResidualWeight(r2, sigma, c, gamma) < ResidualWeight(r1, sigma, c, gamma) by {
        OutlierWeightBelowNominal(r2, sigma, c, gamma);
      }
    } else {
      OutlierWeightsNonincreasing(r1, r2, sigma, c, gamma);
    }
  }

  /** Between two residuals above the threshold, the larger gets no larger weight. */
  lemma OutlierWeightsNonincreasing(r1: real, r2: real, sigma: real, c: real, gamma: real)
    requires sigma > 0.0 && c > 0.0 && gamma > 0.0
    requires c < ResidualDash(r1, sigma) <= ResidualDash(r2, sigma)
    ensures WeightDefined(r1, sigma, c, gamma) && WeightDefined(r2, sigma, c, gamma)
    ensures ResidualWeight(r2, sigma, c, gamma) <= ResidualWeight(r1, sigma, c, gamma)
  {
    OutlierWeightsOrdered(ResidualDash(r1, sigma), ResidualDash(r2, sigma), sigma, c, gamma);
  }

  /** The down-weighting formula of eq. 32 does not increase with the normalised residual. */
  lemma OutlierWeightsOrdered(d1: real, d2: real, sigma: real, c: real, gamma: real)
    requires sigma > 0.0 && c > 0.0 && gamma > 0.0 && c < d1 <= d2
    ensures d1 * 2.0 * gamma != 0.0 && d2 * 2.0 * gamma != 0.0
    ensures OutlierWeight(d2, sigma, c, gamma) <= OutlierWeight(d1, sigma, c, gamma)
  {
    var e1, e2 := d1 * 2.0 * gamma, d2 * 2.0 * gamma;
    ScaleMonotone(d1, d2, 2.0 * gamma);
    DivAntitone(c, e1, e2);
    assert 0.0 < c / e2 by { assert c / e2 * e2 == c; }
    ScaleMonotone(c / e2, c / e1, 1.0 / sigma);
  }

  // Small facts of ordered-field arithmetic that the solver does not find alone.

  lemma ScaleAtLeast(x: real, k: real)
    requires x > 0.0 && k >= 1.0
    ensures x * k >= x
  {
    assert x * k - x == x * (k - 1.0);
  }

  lemma DivBelowOne(c: real, d: real)
    requires 0.0 < c < d
    ensures c / d < 1.0
  {
    var q := c / d;
    assert q * d == c;
    if q >= 1.0 {
      assert false;
    }
  }

  lemma ShrinkByFraction(q: real, s: real)
    requires 0.0 < q < 1.0 && s > 0.0
    ensures 0.0 < q * s < s
  {
    assert s - q * s == (1.0 - q) * s;
  }

  lemma ScaleMonotone(a: real, b: real, k: real)
    requires 0.0 < a <= b && k > 0.0
    ensures 0.0 < a * k <= b * k
  {
    assert b * k - a * k == (b - a) * k;
  }

  lemma DivAntitone(c: real, a: real, b: real)
    requires c > 0.0 && 0.0 < a <= b
    ensures c / b <= c / a
  {
    assert c / a - c / b == c * (b - a) / (a * b);
    assert a * b > 0.0;
    assert c * (b - a) >= 0.0;
  }

  lemma DashMonotone(r1: real, r2: real, sigma: real)
    requires sigma > 0.0 && Abs(r1) <= Abs(r2)
    ensures ResidualDash(r1, sigma) <= ResidualDash(r2, sigma)
  {
    assert ResidualDash(r1, sigma) == Abs(r1) / sigma;
    assert ResidualDash(r2, sigma) == Abs(r2) / sigma;
    assert Abs(r2) / sigma - Abs(r1) / sigma == (Abs(r2) - Abs(r1)) / sigma;
  }

  /**
   * The three bands of equation 38: below c0 the factor is 1; strictly
   * between c0 and c it is inversely proportional to delta; at c0 itself and
   * from c upward (above c0) it is proportional to delta.
   */
  lemma FactorBands(delta: real, c0: real, c: real, gamma: real)
    requires FactorDefined(delta, c0, c)
    ensures delta < c0 ==> AdaptiveFactor(delta, c0, c, gamma) == 1.0
    ensures c0 < delta < c ==> AdaptiveFactor(delta, c0, c, gamma) * delta == c0 * gamma
    ensures delta == c0 || (c0 < delta && c <= delta) ==> AdaptiveFactor(delta, c0, c, gamma) == delta * gamma
  {
    if c0 < delta < c {
      assert c0 / delta * delta == c0;
    }
  }

  /** With positive thresholds and gamma the adaptive factor is defined and positive in every band. */
  lemma FactorPositive(delta: real, c0: real, c: real, gamma: real)
    requires c0 > 0.0 && gamma > 0.0
    ensures FactorDefined(delta, c0, c)
    ensures AdaptiveFactor(delta, c0, c, gamma) > 0.0
  {
    if c0 < delta < c {
      assert c0 / delta > 0.0;
    }
  }

  /**
   * Equation 39 is the ordinary Kalman gain P/(P + R) with effective
   * measurement noise R = alpha/w.
   */
  lemma GainIsKalmanGain(pPred: real, alpha: real, w: real)
    requires GainDefined(pPred, alpha, w)
    ensures pPred + alpha / w != 0.0
    ensures Gain(pPred, alpha, w) == pPred / (pPred + alpha / w)
  {
    var den := (1.0 / alpha) * pPred + 1.0 / w;
    assert den * alpha == pPred + alpha / w;
    assert pPred + alpha / w != 0.0;
    calc {
      Gain(pPred, alpha, w);
      ((1.0 / alpha) * pPred) / den;
      ((1.0 / alpha) * pPred * alpha) / (den * alpha);
      pPred / (pPred + alpha / w);
    }
  }

  /** With positive variance, factor and weight the gain lies strictly between 0 and 1. */
  lemma GainInUnitInterval(pPred: real, alpha: real, w: real)
    requires pPred > 0.0 && alpha > 0.0 && w > 0.0
    ensures GainDefined(pPred, alpha, w)
    ensures 0.0 < Gain(pPred, alpha, w) < 1.0
  {
    assert 1.0 / alpha > 0.0 && 1.0 / w > 0.0;
    assert (1.0 / alpha) * pPred > 0.0;
    assert alpha / w > 0.0;
  }

  /** Tuning under which every division of a step is defined and every variance stays positive. */
  predicate Tuned(t: Tuning)
  {
    t.sigma > 0.0 && t.residualThreshold > 0.0 && t.adaptiveThreshold > 0.0
    && t.gamma > 0.0 && t.systemModelError > 0.0
  }

  /** Under a tuned filter and a non-negative variance, every step is defined, for any input. */
  lemma StepDefinedWhenTuned(t: Tuning, x: real, p: real, dt: real, z: real, v: real, acc: real, estimation: real)
    requires Tuned(t) && p >= 0.0
    ensures StepDefined(t, x, p, dt, z, v, acc, estimation)
  {
    var pred := PredictState(t.systemModel, x, v, acc, dt);
    var pPred := PredictVariance(t.systemModel, p, t.systemModelError);
    var r := z - StateMeasurementRelation * pred;
    WeightPositive(r, t.sigma, t.residualThreshold, t.gamma);
    var delta := (estimation - pred) / pPred;
    FactorPositive(delta, t.adaptiveThreshold, t.residualThreshold, t.gamma);
    GainInUnitInterval(pPred, AdaptiveFactor(delta, t.adaptiveThreshold, t.residualThreshold, t.gamma),
                       ResidualWeight(r, t.sigma, t.residualThreshold, t.gamma));
  }

  /**
   * Under a tuned filter the updated variance (eq. 42) is positive and
   * strictly below the predicted one, and the updated state (eq. 40) moves
   * strictly toward the measurement whenever the residual is nonzero: no
   * residual, however large, leaves the prediction uncorrected.
   */
  lemma TunedStepContracts(t: Tuning, x: real, p: real, dt: real, z: real, v: real, acc: real, estimation: real)
    requires Tuned(t) && p >= 0.0
    ensures StepDefined(t, x, p, dt, z, v, acc, estimation)
    ensures var u := Step(t, x, p, dt, z, v, acc, estimation);
      0.0 < u.variance < u.variancePrediction
      && (u.residual != 0.0 ==> u.state != u.prediction && Abs(z - u.state) < Abs(u.residual))
  {
    StepDefinedWhenTuned(t, x, p, dt, z, v, acc, estimation);
    var u := Step(t, x, p, dt, z, v, acc, estimation);
    StepShape(t, x, p, dt, z, v, acc, estimation);
    assert u.weight > 0.0 by { WeightPositive(u.residual, t.sigma, t.residualThreshold, t.gamma); }
    assert u.factor > 0.0 by { FactorPositive(u.delta, t.adaptiveThreshold, t.residualThreshold, t.gamma); }
    assert 0.0 < u.gain < 1.0 by { GainInUnitInterval(u.variancePrediction, u.factor, u.weight); }
    CorrectionFacts(u.gain, u.variancePrediction, u.variance, u.prediction, u.residual, u.state, z);
  }

  /** How the fields of a step's record depend on each other. */
  lemma StepShape(t: Tuning, x: real, p: real, dt: real, z: real, v: real, acc: real, estimation: real)
    requires StepDefined(t, x, p, dt, z, v, acc, estimation)
    ensures var u := Step(t, x, p, dt, z, v, acc, estimation);
      u.prediction == PredictState(t.systemModel, x, v, acc, dt)
      && u.variancePrediction == PredictVariance(t.systemModel, p, t.systemModelError)
      && u.measurementPrediction == StateMeasurementRelation * u.prediction
      && u.residual == z - u.measurementPrediction
      && u.residual == z - StateMeasurementRelation * u.prediction
      && u.residualDash == ResidualDash(u.residual, t.sigma)
      && u.variancePrediction != 0.0
      && u.delta == (estimation - u.prediction) / u.variancePrediction
      && u.weight == ResidualWeight(u.residual, t.sigma, t.residualThreshold, t.gamma)
      && u.factor == AdaptiveFactor(u.delta, t.adaptiveThreshold, t.residualThreshold, t.gamma)
      && GainDefined(u.variancePrediction, u.factor, u.weight)
      && u.gain == Gain(u.variancePrediction, u.factor, u.weight)
      && u.state == CorrectState(u.prediction, u.gain, u.residual)
      && u.variance == CorrectVariance(u.gain, u.variancePrediction)
  {
  }

  /** A gain strictly inside (0, 1) shrinks both the variance and the distance to the measurement. */
  lemma CorrectionFacts(k: real, pPred: real, variance: real, pred: real, r: real, state: real, z: real)
    requires 0.0 < k < 1.0 && pPred > 0.0
    requires variance == CorrectVariance(k, pPred)
    requires r == z - StateMeasurementRelation * pred && state == CorrectState(pred, k, r)
    ensures 0.0 < variance < pPred
    ensures r != 0.0 ==> state != pred && Abs(z - state) < Abs(r)
  {
    ShrinkByFraction(1.0 - k, pPred);
    var e := z - state;
    assert e == (1.0 - k) * r;
    if r > 0.0 {
      ShrinkByFraction(1.0 - k, r);
      assert Abs(e) < Abs(r);
    } else if r < 0.0 {
      ShrinkByFraction(1.0 - k, -r);
      assert e == -((1.0 - k) * (-r));
      assert Abs(e) < Abs(r);
    }
    if r != 0.0 {
      assert k * r != 0.0;
    }
  }
}

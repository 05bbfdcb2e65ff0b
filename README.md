# pypersonnelloc: the robust adaptive Kalman tracker, in Dafny

pypersonnelloc tracks people from ultra-wideband (UWB) positions and inertial
(IMU) velocities. The service subscribes to telemetry messages. It queues the
ones addressed to the tracker's walker id. For each queued message it runs one
robust adaptive Kalman filter (RAKF) per tracked axis and publishes two
records: a position record and the full annotated result.

This project models the two classes that do this work:

- `RAKF1D`, the one-axis filter. Its state lives in instance fields. Its sample
  windows are fixed-length arrays that every step rolls left, writing the
  newest sample into the last slot. Each step computes the paper's equations
  29 to 42, with a weighted least-squares (WLS) fit over the windows.
- `RAKFLocalization`, the per-person tracker. It builds zero to three axis
  filters from `track_dimension`, admits telemetry messages to a queue, runs
  the filters on the oldest queued message, and shapes the result records.

Modules:

- `Equations`: the scalar equations over exact reals, as pure functions. `Step`
  returns every intermediate value of one step as an `Update` record. Each
  division the source does without a guard gets a definedness predicate.
- `Window`: shifting a window, both as a sequence function and as the in-place
  `Roll` on an array.
- `Axis`: the class `Rakf1D`. It has the source's fields and five array
  windows. `Run` changes them in place. Its contract says the filter's new
  snapshot (clock, state, variance and windows) is `Advance` of the snapshot
  before the call, and its intermediate fields hold that step's values.
- `Telemetry`: decoded messages as maps, the binding-key split, the admission
  test, and the record shaping.
- `Localization`: the class `RakfLocalization`, with its queue as a sequence
  field. The states of its axis filters are also read as one value, an
  `Axes` of filter snapshots. A step of the tracker is specified by the
  snapshots and intermediate values it leads to (`Advanced`, `Traced`), so
  consecutive updates compose.

Where the published RAKF and the code differ, the model follows the code:

- A residual above the threshold is never discarded; it only lowers the weight.
- The nominal weight is `1/sigma`, where sigma is the standard deviation.
- The normalised estimate difference `delta` is signed.
- `delta == c0` falls into the last band of equation 38.
- The y and z filters take the x entry's measurement error.

The WLS fit and predict is an opaque function `Wls` that each filter receives
at construction. The square root of the measurement error is a parameter
`sigma`, constrained by `sigma > 0` and `sigma * sigma == measurementError`.

## Model

| member | source | states |
|---|---|---|
| Equations.TimeDelta | pypersonnelloc/algorithm/RAKF1D.py:117-123 | The first call (previous time negative) steps by 0. Later calls step by the elapsed milliseconds over 1000, so `previous + 1000*dt == timestamp`. The step is non-negative when timestamps do not go back. |
| Equations.PredictState | pypersonnelloc/algorithm/RAKF1D.py:127-128 | Eq. 29. With a zero time step (the first call) the prediction is the system model times the state: velocity and acceleration have no effect. |
| Equations.PredictVariance | pypersonnelloc/algorithm/RAKF1D.py:131-132 | Eq. 30. From a non-negative variance, the predicted variance is at least the model error Q. |
| Equations.ResidualWeight | pypersonnelloc/algorithm/RAKF1D.py:139-151 | Eq. 31 and 32. With a positive threshold and gamma, every residual gets a positive weight, so none is discarded. |
| Equations.AdaptiveFactor | pypersonnelloc/algorithm/RAKF1D.py:184-190 | Eq. 38. With a positive threshold c0 and gamma, the factor is positive in all three bands. |
| Equations.Gain | pypersonnelloc/algorithm/RAKF1D.py:192-197 | Eq. 39. With positive predicted variance, factor and weight, the gain lies strictly between 0 and 1. |
| Equations.CorrectState | pypersonnelloc/algorithm/RAKF1D.py:199-200 | Eq. 40. The residual left after the correction is the fraction `1 - K` of the residual. |
| Equations.CorrectVariance | pypersonnelloc/algorithm/RAKF1D.py:205-206 | Eq. 42. A gain strictly between 0 and 1 gives a positive variance below the predicted one. |
| Equations.Step | pypersonnelloc/algorithm/RAKF1D.py:127-206 | One step chains eq. 29 to 42. The measurement minus the new state is `(1 - K)` times the residual. |
| Equations.WeightClassification | pypersonnelloc/algorithm/RAKF1D.py:142-151 | Stated on the raw residual. The weight is `1/sigma` when `\|r\| <= c*sigma`, which includes the boundary. Otherwise it is `(c/(\|r\|/sigma*2*gamma))*(1/sigma)`. |
| Equations.WeightPositive | pypersonnelloc/algorithm/RAKF1D.py:144-151 | With positive sigma, c and gamma, the weight is defined and positive, so its reciprocal at line 194 exists. |
| Equations.OutlierWeightBelowNominal | pypersonnelloc/algorithm/RAKF1D.py:147-151 | With gamma >= 1/2, a residual above the threshold gets a weight strictly between 0 and the nominal `1/sigma`. It is down-weighted, never dropped. |
| Equations.WeightNonincreasing | pypersonnelloc/algorithm/RAKF1D.py:144-151 | With gamma >= 1/2, a larger absolute residual never gets a larger weight. This holds across the threshold as well. |
| Equations.OutlierWeightsNonincreasing | pypersonnelloc/algorithm/RAKF1D.py:147-151 | Between two residuals above the threshold, the larger one gets no larger weight. |
| Equations.OutlierWeightsOrdered | pypersonnelloc/algorithm/RAKF1D.py:150-151 | The down-weighting formula does not increase with the normalised residual. |
| Equations.DashMonotone | pypersonnelloc/algorithm/RAKF1D.py:142 | The normalised residual is monotone in the absolute residual. |
| Equations.FactorBands | pypersonnelloc/algorithm/RAKF1D.py:184-190 | Eq. 38 has three bands. Below c0 the factor is 1. Strictly between c0 and c it satisfies `factor*delta == c0*gamma`. At `delta == c0`, and at `delta >= c` above c0, it is `delta*gamma`. |
| Equations.FactorPositive | pypersonnelloc/algorithm/RAKF1D.py:184-193 | With positive c0 and gamma, the factor is defined and positive in every band, so `1/factor` at line 193 exists. |
| Equations.GainIsKalmanGain | pypersonnelloc/algorithm/RAKF1D.py:192-197 | Eq. 39 equals the ordinary Kalman gain `P_pred/(P_pred + alpha/w)`, with effective noise `alpha/w`. |
| Equations.GainInUnitInterval | pypersonnelloc/algorithm/RAKF1D.py:192-197 | With positive predicted variance, factor and weight, the gain is defined and lies strictly between 0 and 1. |
| Equations.StepDefinedWhenTuned | pypersonnelloc/algorithm/RAKF1D.py:127-203 | With positive sigma, c, c0, gamma and Q, and a non-negative variance, every division of a step is defined, for any measurement, time step and fit result. |
| Equations.TunedStepContracts | pypersonnelloc/algorithm/RAKF1D.py:199-206 | Under a positive tuning the new variance is positive and strictly below the predicted one. For a nonzero residual, the new state differs from the prediction and is strictly closer to the measurement. Large residuals are still corrected. |
| Equations.CorrectionFacts | pypersonnelloc/algorithm/RAKF1D.py:199-206 | A gain in (0, 1) shrinks both the variance `(1-K)*P_pred` and the remaining residual `z - (pred + K*r)`. |
| Window.ShiftIn | pypersonnelloc/algorithm/RAKF1D.py:155-159 | A shift keeps the length. Slot i gets old slot i+1, and the last slot gets the new sample. |
| Window.ShiftInAllKeepsNewest | pypersonnelloc/algorithm/RAKF1D.py:155-159 | After any number of shifts the window holds exactly the newest N samples, oldest first: the surviving old samples followed by the new ones. |
| Window.Roll | pypersonnelloc/algorithm/RAKF1D.py:155-156 | The in-place roll-and-overwrite of an array equals `ShiftIn` of its old contents. |
| Axis.PositionRegression | pypersonnelloc/algorithm/RAKF1D.py:176-179 | Without IMU the regression has the measurement window as observations, a single position column and the given weights. It is evaluated at the newest position. |
| Axis.ImuRegression | pypersonnelloc/algorithm/RAKF1D.py:168-175 | With IMU the observation matrix has position, velocity and acceleration as its columns (`np.stack(axis=1)`). It is evaluated at the newest row. |
| Axis.Rakf1D.constructor | pypersonnelloc/algorithm/RAKF1D.py:17-94 | Every field is set from its argument, and the filter is `Initial`: `time_previous` is -1, the intermediate values are absent, the measurement and position windows are zeros and the weight window ones. The velocity and acceleration windows exist (zeros) exactly under `"uwb_imu"`. |
| Axis.Rakf1D.Design | pypersonnelloc/algorithm/RAKF1D.py:153-179 | The regression a step from snapshot b fits uses b's measurement window after the shift and b's weight window from before this step. Its position column is the shifted position window, which receives the pre-update state. It is queried at that state. |
| Axis.Rakf1D.ShiftWindowsAndFit | pypersonnelloc/algorithm/RAKF1D.py:153-179 | Position, measurement and (under `"uwb_imu"`) velocity and acceleration windows shift in the pre-update state and the new sample. The result is the fit of `Design` of the snapshot before the call. |
| Axis.Rakf1D.Run | pypersonnelloc/algorithm/RAKF1D.py:116-252 | `Stepped(old snapshot, sample)`: `time_previous` becomes the timestamp, the state and variance are those `Step` computes, and every window holds `ShiftIn` of its old contents (the weight window gets this step's weight after the fit). Every intermediate field holds that step's value and the fit. The call returns the new state. Under a positive tuning the new variance is below the prediction. |
| Axis.Rakf1D.TunedStep | pypersonnelloc/algorithm/RAKF1D.py:116-206 | From a snapshot with non-empty windows, positive tuning and non-negative variance, a step is defined on every sample. It leads to a positive variance below the predicted one, so the next state is tuned again. |
| Telemetry.Split | pypersonnelloc/algorithm/RAKFLocalization.py:181 | `split` yields at least one part, and no part contains the separator. |
| Telemetry.JoinSplit | pypersonnelloc/algorithm/RAKFLocalization.py:181 | Splitting loses nothing: joining the parts with the separator gives the key back. |
| Telemetry.JoinLast | pypersonnelloc/algorithm/RAKFLocalization.py:181-182 | The last part of a join follows the last separator. |
| Telemetry.LastSegment | pypersonnelloc/algorithm/RAKFLocalization.py:181-182 | The walker id is the longest dot-free suffix of the binding key: either the whole key, or the text after its last dot. |
| Telemetry.Admissible | pypersonnelloc/algorithm/RAKFLocalization.py:179-193 | An admissible message carries all nine required keys, and its id is the tracker's own id. |
| Telemetry.Admitted | pypersonnelloc/algorithm/RAKFLocalization.py:177-195 | One pass queues at most one copy per subscriber, and every queued item is the message itself. |
| Telemetry.AdmittedCopies | pypersonnelloc/algorithm/RAKFLocalization.py:177-195 | One pass over the subscribers queues the message once per subscriber on the delivering exchange when it is admissible, and not at all otherwise. Every queued item is the message. |
| Telemetry.AdmittedAreComplete | pypersonnelloc/algorithm/RAKFLocalization.py:183-195 | Only messages carrying all nine required keys are queued. |
| Telemetry.Annotate | pypersonnelloc/algorithm/RAKFLocalization.py:159-164 | The result keeps every input field. It adds exactly `dimension`, `x_est_pos`, `y_est_pos` and `z_est_pos`, with the given values. |
| Telemetry.PlmRecord | pypersonnelloc/algorithm/RAKFLocalization.py:218-224 | The position record has exactly the keys id, the three estimates and timestamp, each copied from the result. |
| Telemetry.PlmOfProcessed | pypersonnelloc/algorithm/RAKFLocalization.py:218-224 | The position record of a processed complete message carries the message's id and timestamp and the three estimates. |
| Localization.RakfLocalization.constructor | pypersonnelloc/algorithm/RAKFLocalization.py:43-84 | The x, y and z filters exist exactly when the dimension exceeds 0, 1 and 2. Each is `Seeded`: built with its start coordinate and its own axis's coefficient, model error, variance, thresholds and gamma, and not stepped yet. All three take the x entry's measurement error. The queue starts empty. |
| Localization.Create | pypersonnelloc/algorithm/RAKFLocalization.py:43-84 | A dimension above 3 is rejected before any filter is built. Too few start coordinates for the tracked axes is an error. It succeeds exactly when neither holds, and then a valid tracker results, with every present filter `Seeded` as the constructor says. |
| Localization.RakfLocalization.SampleOf | pypersonnelloc/algorithm/RAKFLocalization.py:126-157 | An axis runs on its position field and the timestamp. Under `"uwb_imu"`, as the x filter's model type says, it also gets its velocity field, and otherwise velocity 0. The acceleration is always 0 g converted, which is 0. |
| Localization.RakfLocalization.RunFilter | pypersonnelloc/algorithm/RAKFLocalization.py:129-137 | The filter takes one step (`Stepped`) on the sample `SampleOf` reads from the message, and the call returns its new state. |
| Localization.RakfLocalization.RunAxis | pypersonnelloc/algorithm/RAKFLocalization.py:129-157 | For a tracked axis with a filter, that filter's snapshot and intermediate values become `AdvancedAt` and `TracedAt` of its state before the run, and the other filters are unchanged. The call returns the new state, or 0 for an axis without a filter. |
| Localization.RakfLocalization.ProcessMeasurement | pypersonnelloc/algorithm/RAKFLocalization.py:120-168 | A message with a missing or non-numeric field that an axis reads fails. Otherwise every present filter takes one step from its state before the call (`AxesStepped`), and the result is `Processed`: the message annotated with the dimension and each filter's new state, 0 for an axis without a filter. |
| Localization.RakfLocalization.AxesSteppedEach | pypersonnelloc/algorithm/RAKFLocalization.py:129-157 | The tracker stepped exactly when each present filter is `Stepped` from its own snapshot on its own sample. |
| Localization.RakfLocalization.TunedAxesStep | pypersonnelloc/algorithm/RAKFLocalization.py:120-168 | Tuned filters can take their step on every readable message, and are tuned again afterwards. So the precondition of the next update holds after every update. |
| Localization.RakfLocalization.ConsumeTelemetryMsg | pypersonnelloc/algorithm/RAKFLocalization.py:170-195 | The queue grows by exactly `Admitted(...)`, one copy per matching subscriber of an admissible message. Every queued message stays complete. |
| Localization.RakfLocalization.Dequeue | pypersonnelloc/algorithm/RAKFLocalization.py:216-217 | Removes and returns the head of the queue, which is complete. |
| Localization.RakfLocalization.Update | pypersonnelloc/algorithm/RAKFLocalization.py:214-228 | On an empty queue nothing changes. Otherwise exactly one message leaves the queue, and the update halts exactly when that message is unreadable. When it emits, every present filter has stepped on the head (`AxesStepped`), the visual record is `Processed` of the head from the filters' states before the call, and the position record is `PlmRecord` of it. Tuned filters stay tuned. |

## Left out

- The statsmodels WLS fit and predict is a function parameter, `Wls`, fixed per filter. Its numerical behaviour is not modelled.
- The unused `param_est` object is not modelled.
- `np.sqrt` is replaced by the parameter `sigma`.
- Arithmetic is over exact reals: no IEEE rounding, overflow, infinities or NaN.
- Logging, and the debugging dictionaries `eqn_result` and `variable_result`, are not modelled.
- The `try/except` wrappers that log and exit the process are modelled as error outcomes (`Create`, `ProcessMeasurement`, `Update`) or as preconditions (`Run`).
- AMQP publishers and subscribers, `connect`, `publish`, JSON encoding and decoding, and the event loop are network I/O. Messages are modelled as already-decoded maps. A subscriber is reduced to its exchange name.
- Reading the YAML configuration is not modelled: the `algorithm` section arrives as an `AlgorithmConfig` value with every key present.
- pypersonnelloc/cli.py, pypersonnelloc/localization/Localization.py, setup.py and pypersonnelloc/__init__.py are not part of this model. They hold process plumbing, a factory and packaging.
- The `estimator.parameter.count` setting is a `nat`. A negative count cannot be expressed, so the failure it causes in the source is not modelled. There, `np.zeros` raises at pypersonnelloc/algorithm/RAKF1D.py:83 and lines 96-98 exit.
- JSON values other than numbers and strings are one opaque `Other` value. An integer and a real with the same value are not told apart.
- Axis.Rakf1D.Run: a step is only modelled when it is defined (`CanRun`), which its precondition requires. With an empty window the source raises an `IndexError` at line 156 and exits. A zero divisor at lines 142, 146, 150, 182, 188, 193-194 or 197 is a NumPy value there, so the source gets an infinity or NaN, NumPy issues a `RuntimeWarning` and the step goes on; the model has no such values and excludes these steps.
- Axis.Rakf1D.Run: the source reassigns fresh NumPy arrays to the window fields. The model updates the same arrays in place, which gives the same contents. The unused `param_est` (line 86) still holds the initial arrays, but it is never read, so the difference is not observable.
- Localization.RakfLocalization.ProcessMeasurement: checks upfront that every field the present axes read is a number, and fails on the whole message otherwise. In the source the earlier axes have already stepped when a later field fails, and the process then exits.
- Localization.RakfLocalization.ProcessMeasurement: a non-numeric `timestamp` on a filter's first step fails in the model. The source takes the first-call branch of lines 118-123 without arithmetic, stores the value and emits the record; it exits only on the next message.
- Localization.RakfLocalization.ProcessMeasurement: JSON `true` and `false` are `Other` in the model, so a message with them in a field an axis reads fails. In the source they act as the numbers 1 and 0 and the step runs.
- Localization.RakfLocalization.ProcessMeasurement: a precondition requires every present filter to be able to take its step, for the same reason as `Run`. `TunedAxesStep` shows it holds for every readable message once the filters are tuned.
- Localization.RakfLocalization.Update: runs the filters on the head before removing it from the queue, where the source removes it first. The order is not observable, because a failed run ends the process.

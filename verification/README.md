# Joy-Con velocity estimation pipeline, in Dafny

This project models the numerical core of a Joy-Con teleoperation tool:

- the per-device `VelocityEstimator`, which turns raw accelerometer samples into bounded velocity estimates;
- the scalar normalisers that prepare stick, accelerometer and gyroscope readings and status keys.

The estimator is a streaming state machine with two phases.

- **Calibration.** The first three samples are collected. Their component-wise mean becomes a fixed gravity offset. Every call in this phase returns zero.
- **Integration.** From then on, each sample has the offset taken away. The result is integrated with the trapezoidal rule against the previous corrected sample. The velocity is then multiplied by 0.99 and clamped to [-2, 2] on every axis.

Numbers are Dafny `real`s, so arithmetic is exact. The estimator state is a tagged value: `Collecting(samples)` or `Ready(samples, offset, velocity, prev)`. One call of `update` is the pure function `VelocityEstimator.Update`. `VelocityEstimator.Run` feeds a sequence of samples through it, and the lemmas in `EstimatorProperties` are about such runs.

Files:

- `scalars.dfy`: `Abs`, `Min`, `Max`, the symmetric clamp `max(-b, min(b, x))`, and powers.
- `vectors.dfy`: the 3-vector, its axes, its component-wise operations, and the mean.
- `velocity_estimator.dfy`: the estimator state, `update`, and runs of it.
- `estimator_properties.dfy`: properties over runs.
- `teleop.dfy`: `normalize_axis`, `normalize_accel`, `normalize_gyro` and `_sanitize_key`.

Two behaviours of the code are modelled as they are written. First, `dt` is not validated, so `Update` accepts any real `dt`; the clamp bound holds for every `dt`. Second, the call that completes calibration (velocity_estimator.py:50) returns the velocity object itself rather than a copy (see Findings).

## Model

| member | source | states |
|---|---|---|
| VelocityEstimator.Init | velocity_estimator.py:9-18 | A new estimator is not initialised, holds no calibration samples, and has zero velocity and zero previous acceleration. |
| VelocityEstimator.InitializeGravity | velocity_estimator.py:20-34 | The sample is appended, on any estimator. Afterwards the estimator is initialised exactly when it already was or at least `n` samples are held. Once `n` samples are held, the offset times the sample count equals the component-wise sum of the samples. An initialised estimator with fewer than `n` samples keeps its offset. Velocity and previous acceleration are never changed. |
| VelocityEstimator.RemoveGravity | velocity_estimator.py:36-42 | Each axis of the corrected sample is the raw axis minus the offset axis. Adding the offset back gives the raw sample. |
| VelocityEstimator.Update | velocity_estimator.py:44-94 | The returned vector is always inside [-2, 2] on every axis and equals the internal velocity just computed. While collecting, the call is `InitializeGravity` with 3 samples and returns zero. Once ready, samples and offset are unchanged, the new previous acceleration is the corrected sample, and each axis follows clamp(0.99 * (v + (c + prev) / 2 * dt)) on its own. |
| VelocityEstimator.Integrate | velocity_estimator.py:58-92 | Each velocity axis is computed from its own axis of velocity, corrected sample and previous sample only: trapezoid step, then decay, then clamp. The result is inside [-2, 2]. |
| VelocityEstimator.Run | velocity_estimator.py:44-94 | A sequence of calls returns one vector per sample. |
| EstimatorProperties.RunOutputsBounded | velocity_estimator.py:88-94 | Every vector returned by any sequence of calls, from any state, lies in [-2, 2] on every axis. |
| EstimatorProperties.RunReturnsVelocity | velocity_estimator.py:50-94 | The last vector a sequence of calls returns equals the estimator's velocity afterwards, on the collecting returns (lines 50-53) and the integration return (line 94) alike. |
| EstimatorProperties.RunAppend | velocity_estimator.py:44-94 | Feeding two sample sequences one after the other gives the same final state and returned vectors as feeding their concatenation. |
| EstimatorProperties.CollectingFrom | velocity_estimator.py:47-53 | While fewer than 3 samples have been seen, each call appends its sample and returns zero. |
| EstimatorProperties.CollectingCalls | velocity_estimator.py:47-53 | The first two calls on a new estimator return zero and leave it uninitialised. Velocity and previous acceleration stay zero. Only the sample list grows. |
| EstimatorProperties.CalibrationCall | velocity_estimator.py:24-31 | The third call sets the offset to the per-axis mean (p + q + r) / 3 of the three samples and initialises the estimator. It still returns zero, with zero velocity and previous acceleration, so that sample is not integrated. |
| EstimatorProperties.IdenticalSamplesCalibrate | velocity_estimator.py:24-30 | Calibrating on three identical samples g gives exactly g as the offset. |
| EstimatorProperties.RunKeepsCalibration | velocity_estimator.py:36-47 | Once initialised, the estimator stays initialised, and its calibration samples and offset never change on later calls. |
| EstimatorProperties.RunFromInit | velocity_estimator.py:20-53 | From a new estimator, n calls leave it initialised exactly when n >= 3. The calibration set is then the first three samples and the offset is their mean. The first min(n, 3) returns are zero. |
| EstimatorProperties.RunPrevIsLastCorrected | velocity_estimator.py:86 | After calls on an initialised estimator, the stored previous acceleration is the last sample minus the offset. |
| EstimatorProperties.InitValid | velocity_estimator.py:9-18 | A new estimator is in the reachable-state invariant. |
| EstimatorProperties.UpdatePreservesValid | velocity_estimator.py:44-94 | Every call keeps the invariant: fewer than 3 samples while collecting; once ready, exactly 3 samples whose mean is the offset, and a velocity inside [-2, 2]. |
| EstimatorProperties.RunPreservesValid | velocity_estimator.py:44-94 | Every sequence of calls keeps the invariant. |
| EstimatorProperties.StationaryStep | velocity_estimator.py:58-92 | Suppose the sample equals the offset and the previous acceleration is zero. Then the call only decays: velocity and return become 0.99 * v, and the previous acceleration stays zero. |
| EstimatorProperties.StationaryDecay | velocity_estimator.py:58-92 | Under the same conditions, k such calls make the i-th return 0.99^(i+1) * v and the final velocity 0.99^k * v. |
| EstimatorProperties.DecayPowerBound | velocity_estimator.py:80-83 | The decay factor after k ticks lies in (0, 1] and is at most 99 / (99 + k), so a nonzero velocity shrinks towards zero. |
| EstimatorProperties.StillDeviceStaysZero | velocity_estimator.py:24-92 | Calibrate on three samples, then feed their mean any number of times. Every return and the final velocity are zero. |
| EstimatorProperties.WorkedExample | velocity_estimator.py:24-94 | Calibrate on three samples (0, 0, 9.8), then feed (1, 0, 9.8) with dt = 0.01. The returns are zero, zero, zero, then (0.00495, 0, 0). |
| EstimatorProperties.WorkedExampleStep | velocity_estimator.py:58-94 | From the state calibrated at (0, 0, 9.8), feeding (1, 0, 9.8) with dt = 0.01 returns (0.00495, 0, 0). |
| VelocityEstimator.UpdateAsWritten | velocity_estimator.py:47-53 | Same state change as `Update`. What the caller reads through the returned handle, at return time, is `Update`'s return value. The returned handle is the estimator's own velocity object exactly when the call completes calibration. Every other call returns a snapshot of `Update`'s return value. |
| VelocityEstimator.UpdateSnapshot | velocity_estimator.py:89-94 | Same state change as `Update`. What the caller reads through the returned handle equals `Update`'s return value in every later state of the estimator. |
| EstimatorProperties.AliasedCalibrationReturn | velocity_estimator.py:50 | The object returned by the third call of the as-written `update` reads zero when returned, but (0.00495, 0, 0) after the worked example's fourth call. |
| Vectors.Mean | velocity_estimator.py:26-28 | The mean times the sample count is the component-wise sum. |
| Vectors.MeanOfCopies | velocity_estimator.py:26-28 | The mean of identical samples is that sample. |
| Vectors.MeanOfThree | velocity_estimator.py:26-28 | The mean of three samples is, on each axis, their sum divided by 3. |
| Scalars.Clamp | velocity_estimator.py:90-92 | `max(-b, min(b, x))` lies in [-b, b]. It is x when x is already inside, and otherwise the nearer bound. |
| Teleop.NormalizeAxis | teleop.py:92-100 | A zero span raises a division error, and only a zero span does. Otherwise the result is in [-1, 1]. It is exactly 0 when the absolute ratio (v - center) / span is strictly below the deadzone. Outside the deadzone it is the ratio when that lies in [-1, 1], and otherwise the nearer bound. |
| Teleop.NormalizeAxisAtCenter | teleop.py:97-99 | A stick at its centre reads exactly 0 for any nonzero span and any deadzone. |
| Teleop.NormalizeAxisMonotone | teleop.py:97-100 | With a positive span, a larger raw value never gives a smaller reading. |
| Teleop.DefaultStickDeadband | teleop.py:92-99 | With the defaults (centre 2048, span 2048, deadzone 0.05), the reading is 0 exactly when the raw value is in [1946, 2150]. |
| Teleop.DefaultStickEnds | teleop.py:92-100 | With the defaults, raw 0 reads -1 and raw 4095 reads 2047/2048. |
| Teleop.NormalizeComponent | teleop.py:108-125 | A component divided by its full-scale value and clamped is in [-1, 1]. It equals the quotient when the component is within full scale, and saturates at the matching bound beyond it. |
| Teleop.NormalizeComponentMonotone | teleop.py:108-125 | A larger component never normalises to a smaller value. |
| Teleop.NormalizeAccel | teleop.py:103-113 | Each output axis is the normalised component of the same input axis with full scale 6000. All axes are in [-1, 1]. |
| Teleop.NormalizeAccelAxes | teleop.py:103-113 | Within ±6000 an axis is divided by 6000 exactly. Two inputs that agree on an axis give the same output on that axis. |
| Teleop.NormalizeGyro | teleop.py:116-126 | Each output axis is the normalised component of the same input axis with full scale 5000. All axes are in [-1, 1]. |
| Teleop.NormalizeGyroAxes | teleop.py:116-126 | Within ±5000 an axis is divided by 5000 exactly. Two inputs that agree on an axis give the same output on that axis. |
| Teleop.SanitizeKey | teleop.py:14-16 | The output has the input's length and contains no '-'. Each position holds '_' where the input had '-', and the input character everywhere else. |
| Teleop.SanitizeKeyKeepsClean | teleop.py:14-16 | A key without '-' comes back unchanged. |
| Teleop.SanitizeKeyIdempotent | teleop.py:14-16 | Sanitising twice gives the same key as sanitising once. |
| Teleop.SanitizeKeyAppend | teleop.py:14-16 | Sanitising a concatenation is concatenating the sanitised parts. |

## Left out

- Diagnostics in `velocity_estimator.py` are left out because they do not affect any number: the `print` calls, the `sample_count` counter, and the every-50-samples debug block (lines 32, 49, 52, 55, 72-77).
- The `hasattr(self, 'prev_accel')` guard at velocity_estimator.py:61 is always true, since `prev_accel` is set to zero at construction. The integration step is modelled as unconditional.
- IEEE-754 rounding, NaN and infinities are left out; arithmetic is exact over `real`. For example, the floating-point mean of three copies of 9.8 need not be exactly 9.8.
- `initialize_gravity` returns `is_initialized` as a bool; the model gives that bool as `IsInitialized` of the state `InitializeGravity` returns. `update` always passes the default of 3 samples.
- The lemmas over sequences of calls use one fixed `dt` for every tick, as the collection loop of `plot_velocity.py` does. `Update` itself takes `dt` per call.
- `normalize_axis` is modelled for integer arguments, as annotated. Float arguments and the float conversion of huge integers are not modelled. Sensor components are modelled as reals.
- `plot_velocity.py` is left out: device acquisition, the sleep loop, deques, plotting and statistics. Its gyro rescale is one multiplication.
- `main` and `open_joycon` in `teleop.py` are left out: they are UDP sockets, JSON serialisation and device discovery through pyjoycon, which is not part of this model.
- `to_attr_status`, `_dict_to_namespace` and `_namespace_to_dict` are left out. They reshape a dynamically typed status dictionary whose schema comes from pyjoycon, which is not part of this model.
- Object identity is modelled only by `Handle` in `UpdateAsWritten` and `UpdateSnapshot`. `Run` and the run lemmas use value semantics, which is the corrected behaviour.

## Findings

| source | as written | input that shows it | evidently intended | confidence | as-written member | corrected member |
|---|---|---|---|---|---|---|
| velocity_estimator.py:50 | The call that completes calibration returns `self.velocity`, the estimator's own mutable velocity object. The other branches return fresh objects (lines 53 and 94). | Three samples (0, 0, 9.8), then (1, 0, 9.8) with dt = 0.01. The object returned by the third call reads (0, 0, 0) when returned and (0.00495, 0, 0) after the fourth call. | A copy of the velocity, as line 94 makes, so a returned value never changes afterwards. The callers shown read the fields at once, so they are not affected. | medium; not executed | EstimatorProperties.AliasedCalibrationReturn | VelocityEstimator.UpdateSnapshot |

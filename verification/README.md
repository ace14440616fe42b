# Safety monitor decision core, modelled in Dafny

This project models the decision logic of a small real-time safety monitor.
The monitor fuses a camera-measured distance to a fiducial (ArUco) marker with
readings from a simulated sensor bank. From these it computes a risk score and
drives a RUNNING/STOPPED state machine, which it pushes back to the simulator.

Five files, one module each:

- `common.dfy` (`Common`): `Option`, the clamp `max(lo, min(hi, x))` and a "lies between" predicate.
- `sensors.dfy` (`Sensors`): the sensor simulator. It holds the readings record, the stress window (deadline and intensity) and the operational state. The class `SensorSimulator` updates these fields in place. The arithmetic of one update pass is the pure function `NextSnapshot`.
- `distance.dfy` (`Distance`): the distance estimator. It has the three-slot median window, the exponential moving average (EMA), the reset and the setters, and the marker-selection rule. The class `DistanceEstimator` keeps the window (`recent`) and the EMA (`ema`) as fields. The pure functions `Push`, `Median`, `Smooth` and `Feed` specify them.
- `risk.dfy` (`Risk`): the risk score, the two-threshold hysteresis rule, the virtual distance used during a stress window, and the operator suggestions.
- `pipeline.dfy` (`Pipeline`): startup capture-mode selection, and the frame loop (class `VideoLoop`). The loop covers the consecutive-read-failure counter, one full iteration (read, distance, virtual distance, risk, state) and the stress-start control.

Floating-point values are Dafny `real`. The clock (`time.time()`), random draws
and sine values are parameters. Device, stream and snapshot outcomes are
boolean parameters. Marker detection and pose recovery are external: a frame
is its list of detections, each with an id, an image-space perimeter, and
either a raw distance (never negative, being the norm of a translation vector) or a pose failure.

## Behaviour of the code worth knowing

- After more than 200 consecutive read failures, the messages at app.py:118 and app.py:121 say "switching to SNAPSHOT/DEMO", but the code only assigns the local variable `CAP_MODE_local` (app.py:119, app.py:122). The global `CAP_MODE` never changes, so the next iteration reads the same device again. `Pipeline.VideoLoop.ReadFrame` returns the chosen mode as `demotedTo` and keeps `capMode` unchanged.
- There are only two operational states, RUNNING and STOPPED (app.py:174). A risk between the two thresholds holds the current state.
- The risk is guaranteed to be at most 1 only when the distance is unknown or non-negative, and guaranteed to be at least 0 only when the readings are non-negative; a negative distance could make the proximity term exceed 1 (app.py:98). The loop never passes a negative distance: a raw distance is a vector norm (aruco_utils.py:113), the window and the EMA of non-negative values stay non-negative, and the virtual distance is at least 0.45. `Pipeline.VideoLoop.Step` states that every risk it computes is at most 1.
- A stress-status query reports the window active only while at least one whole second is left (truncation, sensor_simulator.py:47). The simulator's update pass applies the stress while `now < until` (sensor_simulator.py:59). `Sensors.LastSecondStillStressed` shows the two disagree in the last second.
- With 0 < α < 1, a constant raw distance comes back exactly on every call from a reset or from a filter that has seen only that value (`Distance.ConstantFromReset`, `Distance.ConstantInputStaysExact`). From a state whose EMA differs, three equal samples make the median equal that value (`Distance.ThreeInARowFillWindow`), but the EMA only approaches it (aruco_utils.py:119-126). With α = 1 the EMA is the median, so the output equals the value from the third sample on at the latest.
- `consecutive_fail` is not reset by a successful read (app.py:107-132). `Pipeline.FailuresAccumulate` shows that failures separated by successes still add up.
- In the running branch, the throughput update has no lower floor (sensor_simulator.py:81). `Sensors.RunningThroughputHasNoFloor` exhibits a negative value.

## Model

| member | source | states |
|---|---|---|
| `Common.Clamp` | aruco_utils.py:63 | The result lies in [lo, hi]. It equals x inside the range and the nearer bound outside it. |
| `Sensors.Trunc` | sensor_simulator.py:47 | Integer conversion truncates toward zero: for x ≥ 0, n ≤ x < n+1; for x < 0, n-1 < x ≤ n. |
| `Sensors.Status` | sensor_simulator.py:45-48 | `seconds_left` is never negative. While time remains it is the whole number of seconds remaining: at most the time remaining and more than that time minus one. `active` holds iff `seconds_left` > 0, which holds iff at least one second remains. |
| `Sensors.StressDeadline` | sensor_simulator.py:37 | The deadline is now + max(5, trunc(seconds)), so it is always at least 5 s away. |
| `Sensors.TickIntensity` | sensor_simulator.py:59-60 | An update pass uses the stored intensity while now < deadline and 0 from the deadline on; whenever a status query would report active, it uses the stored intensity. |
| `Sensors.TickTargets` | sensor_simulator.py:65-78 | Targets are computed from the new load. For draws in their documented ranges, a load in [0,120] and an intensity in [0,1], temperature targets lie in [27.5, 111], pressure in [1.05, 5.55] and vibration in [1.7, 14]. |
| `Sensors.StoppedLowersTargets` | sensor_simulator.py:75-78 | With the same load, intensity and draws, STOPPED lowers the temperature, pressure and vibration targets by exactly 0.5, 0.05 and 0.1. |
| `Sensors.Approach` | sensor_simulator.py:83-85 | The new value moves exactly a tenth of the way to the target and lies between the old value and the target. |
| `Sensors.NextThroughput` | sensor_simulator.py:79-81 | STOPPED gives t-5 when t ≥ 5 and 0 when t ≤ 5, never negative and never above t. Running gives t+step when that is ≤ 300 and 300 when it is ≥ 300, so it is at most 300 but has no lower bound. |
| `Sensors.NextSnapshot` | sensor_simulator.py:58-86 | For any draws: load is in [0,120] and humidity in [20,80]. Throughput ≤ 300 is preserved. Temperature, pressure and vibration each end between their old value and their target. |
| `Sensors.SensorSimulator.constructor` | sensor_simulator.py:7-21 | Starts RUNNING with the baseline readings, deadline 0 and intensity 0. |
| `Sensors.SensorSimulator.SetState` | sensor_simulator.py:31-33 | Writes only the state field. |
| `Sensors.SensorSimulator.TriggerStress` | sensor_simulator.py:35-38 | Sets the deadline to now + max(5, trunc(seconds)) and the intensity to the intensity clamped into [0.2, 1.0]. Nothing else changes. |
| `Sensors.SensorSimulator.CancelStress` | sensor_simulator.py:40-43 | Zeroes the deadline and the intensity. |
| `Sensors.SensorSimulator.StressStatus` | sensor_simulator.py:45-48 | Reports the truncated seconds left, clamped at 0. It reports active only when that count is positive, which implies now < deadline. |
| `Sensors.SensorSimulator.GetData` | sensor_simulator.py:50-52 | Returns the current readings as a value copy. |
| `Sensors.SensorSimulator.Tick` | sensor_simulator.py:54-86 | The new readings are `NextSnapshot` of the old ones, using intensity k = stored intensity while now < deadline, else 0. Only the readings change. |
| `Sensors.StatusRightAfterTrigger` | sensor_simulator.py:35-48 | Queried at the instant of the trigger, the window is active with max(5, trunc(seconds)) seconds left. |
| `Sensors.FiveSecondTrigger` | sensor_simulator.py:35-48 | A 5-second trigger queried at once reports active with 5 seconds left. |
| `Sensors.StatusAfterCancel` | sensor_simulator.py:40-48 | After a cancel, any query at a non-negative time reports inactive with 0 seconds left. |
| `Sensors.ActiveStatusMeansStressedTick` | sensor_simulator.py:45-60 | Whenever the status reports active, an update pass at that instant uses the full intensity. |
| `Sensors.LastSecondStillStressed` | sensor_simulator.py:45-60 | In the last second of a window, the status reports inactive with 0 seconds left, yet the update pass still applies the full intensity. |
| `Sensors.RunningThroughputHasNoFloor` | sensor_simulator.py:81 | Running with throughput 1 and step -2 gives -1. |
| `Sensors.UpdatesStayBounded` | sensor_simulator.py:54-88 | The load, humidity and throughput bounds hold after any number of update passes, whatever the states, intensities and draws. |
| `Distance.Push` | aruco_utils.py:115 | Appending to the window keeps at most 3 values, with the newest last. On a window of at most 3, it is the old window plus the value when there was room, and the old window minus its oldest value plus the value when it was full. |
| `Distance.PushAllKeepsLastThree` | aruco_utils.py:65 | From any window of at most 3 values, after any sequence of appends the window holds exactly the last ≤3 values seen, in order. |
| `Distance.Median` | aruco_utils.py:116 | One value gives that value. Two give their mean. Three give one of them, with at least two values ≤ it and at least two ≥ it. |
| `Distance.MedianRejectsOneOutlier` | aruco_utils.py:114-116 | When two of three window values agree, the median is that value whatever the third is. |
| `Distance.SpikeExample` | aruco_utils.py:116 | The median of [1.0, 1.0, 5.0] is 1.0. |
| `Distance.Smooth` | aruco_utils.py:118-126 | With α ≤ 0 the median is returned and the EMA is left as it was. With α > 0, the first sample sets the EMA to the median. A later sample lies between the previous EMA and the median when α ≤ 1, and the returned distance is the new EMA. |
| `Distance.MixBetween` | aruco_utils.py:123 | For 0 < α ≤ 1, α·m + (1 − α)·p lies between p and m. |
| `Distance.Feed` | aruco_utils.py:115-126 | The window becomes `Push` of the raw distance. With α > 0 the EMA becomes the returned distance; with α ≤ 0 the EMA is kept and the median is returned. From a reset with α > 0 the raw distance comes back exactly. For 0 < α ≤ 1 after an earlier sample, the result lies between the previous EMA and the median. |
| `Distance.FeedSettled` | aruco_utils.py:115-124 | Feeding c to a filter that has seen only c returns exactly c and keeps the filter in that state. |
| `Distance.ConstantInputStaysExact` | aruco_utils.py:115-124 | A run of equal raw distances c into a filter settled on c returns c on every call. |
| `Distance.FeedKeepsNonNegative` | aruco_utils.py:113-126 | From a window of at most 3 values and an EMA that are all non-negative, with α in [0, 1], a non-negative raw distance leaves the window and the EMA non-negative and returns a non-negative distance. |
| `Distance.ConstantFromReset` | aruco_utils.py:115-124 | From a reset with α > 0, feeding a constant raw distance returns exactly that value on every call. |
| `Distance.ThreeInARowFillWindow` | aruco_utils.py:115-116 | From any reachable window (at most 3 values), three appends of c leave [c, c, c], whose median is c. |
| `Distance.FirstWithId` | aruco_utils.py:154-157 | The result is the first index carrying the id, or None exactly when no marker carries it. |
| `Distance.FirstLargest` | aruco_utils.py:160-170 | The result is the first index of maximum perimeter, as `np.argmax` returns. |
| `Distance.SelectIndex` | aruco_utils.py:149-170 | If the target id is present, the result is its first index. Otherwise (no target, or target absent) it is the first index of largest perimeter. It is None only when there are no detections. |
| `Distance.RawDistance` | aruco_utils.py:90-113 | A missing or empty frame, or one with no detections, yields None. Otherwise the result is the pose outcome of the selected marker. A raw distance is never negative. |
| `Distance.DistanceEstimator.constructor` | aruco_utils.py:17-65 | α is clipped into [0,1]. The default intrinsics and zero distortion are used when none are given. The filter starts empty with no EMA. |
| `Distance.DistanceEstimator.ResetFilter` | aruco_utils.py:79-81 | Empties the window and unsets the EMA. |
| `Distance.DistanceEstimator.SetMarkerSize` | aruco_utils.py:69-71 | Sets the marker size and ends with a reset. |
| `Distance.DistanceEstimator.SetCameraIntrinsics` | aruco_utils.py:73-77 | Sets the matrix. The distortion changes only when given. Ends with a reset. |
| `Distance.DistanceEstimator.SelectMarkerIndex` | aruco_utils.py:149-170 | The loop scans compute exactly `SelectIndex` for the estimator's target id. |
| `Distance.DistanceEstimator.EstimateDistance` | aruco_utils.py:85-145 | These cases return None with the window and EMA unchanged: missing or empty frame, no detections, or pose failure of the selected marker. Otherwise the raw distance is appended, and the median goes through the EMA rule. The window stays at ≤3 values, every value the filter holds stays non-negative, and so does the returned distance. |
| `Risk.Cap` | app.py:93-97 | Each normalised reading is capped at 1 and never raised: a reading ≤ 1 is kept, a reading ≥ 1 becomes 1. |
| `Risk.Proximity` | app.py:98 | The term is 0 for an unknown distance and for any d ≥ 2. It is 1 − d/2 for d ≤ 2, in [0,1] for d ≥ 0, and never negative. |
| `Risk.ComputeRisk` | app.py:92-100 | The risk is ≤ 1 whenever the distance is unknown or non-negative. It is ≥ 0 whenever the five readings are non-negative. |
| `Risk.UnknownDistanceScoresAsFar` | app.py:98 | An unknown distance gives exactly the same risk as any d ≥ 2. |
| `Risk.UnknownDistanceNeverRaisesRisk` | app.py:98 | An unknown distance never scores above any known one. |
| `Risk.RiskMonotoneInReadings` | app.py:93-99 | Raising readings, with the distance fixed, never lowers the risk. |
| `Risk.RiskAntitoneInDistance` | app.py:98-99 | A larger distance never raises the risk. |
| `Risk.NextState` | app.py:174 | Risk ≥ 0.70 gives STOPPED. Risk < 0.50 gives RUNNING. Anything in between keeps the previous state. |
| `Risk.ChangesNeedThresholds` | app.py:174 | RUNNING→STOPPED happens only at risk ≥ 0.70. STOPPED→RUNNING happens only at risk < 0.50. |
| `Risk.NextStateIdempotent` | app.py:174 | Re-evaluating with the same risk changes nothing. |
| `Risk.States` | app.py:174 | The trace has one state per risk. Its first state is `NextState` of the start state and the first risk, and each later state is `NextState` of the state before it and its own risk. |
| `Risk.BandHoldsState` | app.py:174 | Any run of risks inside [0.50, 0.70) keeps the state unchanged throughout. |
| `Risk.TraceFromRunning` | app.py:174 | From RUNNING, risks [0.3, 0.6, 0.6, 0.8, 0.4] give [RUNNING, RUNNING, RUNNING, STOPPED, RUNNING]. |
| `Risk.TraceFromStopped` | app.py:174 | From STOPPED, risks [0.55, 0.45] give [STOPPED, RUNNING]. |
| `Risk.Elapsed` | app.py:152 | Elapsed time is never negative. It is 0 when stress was never started, now − start when the start is at or before now, and 0 when the start is later than now. |
| `Risk.Squeeze` | app.py:153 | For elapsed ≥ 0 the squeeze lies in [0,1]. It is elapsed/8 up to 8 s and 1 after. |
| `Risk.SqueezeBase` | app.py:154 | For elapsed ≥ 0 the base lies in [0.6, 1.6]. It is 0.6 from 8 s on. |
| `Risk.VirtualDistance` | app.py:151-156 | The result is always ≥ 0.45. For elapsed ≥ 0 and a wobble within ±0.05 it is ≤ 1.65, and ≤ 0.65 from 8 s on. |
| `Risk.EffectiveDistance` | app.py:151-156 | A marker distance is used as is. Without one, the virtual distance is used only while stress is active, and otherwise the result is None. |
| `Risk.VirtualDistanceKeepsRiskBounded` | app.py:151-172 | A virtual distance never makes the risk exceed 1. |
| `Risk.Suggestions` | app.py:263-267 | The show-marker tip appears iff the distance is unknown. The last tip is CRITICAL iff risk ≥ 0.70, and SAFE iff risk < 0.50. |
| `Risk.SuggestionsAgreeWithStates` | app.py:263-267 | The CRITICAL tip appears exactly when every state goes to STOPPED. The SAFE tip appears exactly when every state goes to RUNNING. |
| `Pipeline.OpenLocalCamera` | app.py:60-65 | Returns the first backend that opens, or None iff none does. |
| `Pipeline.SelectSource` | app.py:67-89 | "stream" iff its URL is set and it opens. Else "snapshot" iff its URL is set. Else "local" iff a backend opens. Else "demo". Only stream and local hold a capture object. |
| `Pipeline.FailStep` | app.py:111-130 | A successful read keeps the counter. A failure adds one, except that the failure taking it past 200 resets it to 0. Starting at most 200, the counter stays at most 200. |
| `Pipeline.FailCountBounded` | app.py:107-132 | The failure counter never exceeds 200. |
| `Pipeline.FailuresAccumulate` | app.py:107-132 | Up to the limit, the counter equals the number of failed reads, even when successes come in between. |
| `Pipeline.SuccessesLeaveCount` | app.py:111-113 | Successful reads leave the counter unchanged. |
| `Pipeline.ResetOnlyPastLimit` | app.py:114-130 | A read brings the counter to 0 only as the failure that passes 200 (or when it was 0 and the read succeeded). |
| `Pipeline.VideoLoop.constructor` | app.py:34-41 | The loop starts in RUNNING (app.py:34), with no stress start time (app.py:41) and no failures (app.py:107). |
| `Pipeline.VideoLoop.ReadFrame` | app.py:110-137 | Stream/local: a failure increments the counter, and past 200 it picks snapshot (if configured) or demo as a local choice only and resets the counter. A success leaves the counter unchanged. Snapshot mode retries on a failed fetch. Demo always yields a frame. `capMode` never changes. |
| `Pipeline.VideoLoop.UpdateState` | app.py:174-178 | The state becomes `NextState`. The simulator's state is written exactly when the state changes. |
| `Pipeline.VideoLoop.StartStress` | app.py:238-239 | Triggers the simulator's stress window and records the start time. |
| `Pipeline.VideoLoop.Step` | app.py:109-178 | The read step behaves as `ReadFrame`: in stream or local mode the counter follows the failure rule and a failed read retries; snapshot mode retries on a failed fetch; demo always yields a frame. A retry changes neither the filter nor the state. Otherwise the filter is advanced by the selected marker's raw distance (or left as it was when there is none), the risk is computed from the current readings and the effective distance, and the state follows `NextState`. The effective distance is the filtered marker distance, or the virtual one during stress. The distance is never negative and the risk never exceeds 1. |

## Left out

- Marker detection, pose estimation, drawing, JPEG encoding and the face cascade are OpenCV calls. A frame is its list of (id, perimeter, pose outcome).
- The perimeter computation with `np.linalg.norm` (aruco_utils.py:161-167) needs square roots. Perimeters are inputs.
- `Distance.DistanceEstimator.EstimateDistance`: a `cv2.error` raised while drawing, after the window was updated, would return None with the filter already changed. The model treats drawing as infallible.
- `Distance.DistanceEstimator.constructor`: the detector dictionary and parameters, `draw_axes`, and the float32 conversion of the intrinsics are not modelled.
- `Risk.ComputeRisk`: returns the unrounded score. Python's `round(..., 3)` (app.py:100) and IEEE float behaviour are not modelled. Because app.py:174 compares the rounded score, a risk just below 0.70 that rounds to 0.700 (from about 0.6995) stops the machine in the source but holds the state in `Pipeline.VideoLoop.Step` and `Pipeline.VideoLoop.UpdateState`. Likewise a risk just below 0.50 that rounds to 0.500 holds the state in the source but gives RUNNING in the model.
- Flask routes, JSON responses and request-argument parsing (app.py:193-268) are the web layer. Only the two lines of the stress-start route that touch the model (app.py:238-239) and the suggestions logic (app.py:263-267) are modelled. `Pipeline.VideoLoop.StartStress` takes already-parsed numbers.
- Threads, locks, `start`/`stop`, `time.sleep`, and publishing `latest_frame`/`last_distance` under the lock (app.py:186-188) are concurrency. The model is sequential.
- `time.time()`, `random.*` and `math.sin` are parameters. `Sensors.DrawsInRange` records the ranges the simulator draws from, and `Sensors.TickTargets` assumes them for its bounds. `Pipeline.VideoLoop.Step` reads the clock once per iteration, where the source reads it several times. `Pipeline.VideoLoop.StartStress` uses one `now` both for the simulator's deadline and for the recorded start time, where the source reads the clock twice (sensor_simulator.py:37 and app.py:239).
- `urllib` snapshot fetches and `cv2.VideoCapture` opening and reading (app.py:51-65) are I/O. Their outcomes are booleans.
- The snapshot retry loop after the failure limit (app.py:124-127) is not modelled. The model assumes it ends: a fetched frame is discarded by the `continue` at app.py:132, so a loop that ends has no effect on the modelled state. If the endpoint never answers, the source hangs there for good, with no counter reset and no later distance, risk or state update; `Pipeline.VideoLoop.ReadFrame` instead resets the counter and carries on, so the model does not capture that hang.
- Demo-frame rendering (app.py:139-144) is not modelled. A demo-mode read simply yields a frame.
- `Sensors.SensorSimulator.TriggerStress`: `seconds` is a real truncated toward zero. A non-numeric argument, which raises in the source, is not modelled.
- camera_diag.py, test_file.py and generate_marker.py are hardware and marker-generation scripts and are not part of this model.

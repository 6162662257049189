# Hand-eye calibration data collection, modelled in Dafny

The ensenso package's `handeye_calibration` node calibrates a stereo camera
against a robot. `HandeyeCalibration::performCalibration` runs the data
collection. It puts the camera grabber into extrinsic-calibration mode. Then,
until `num_pose` samples exist, it asks the `calibration_move_random` service to
move the robot. It captures the calibration pattern up to five times and, when
the last capture reports at least three buffered patterns, stores the estimated
pattern pose beside the robot pose of the move reply. Finally it sends both pose
lists to the `AXXBsolver` service and returns whether that call succeeded.

The model has three modules:

- `Ensenso` (`ensenso_grabber.dfy`): a stand-in for the grabber, a class with a
  streaming flag, the pattern-buffer count and the grid spacing. What the
  pattern detector sees on each capture attempt is scripted as a `Detection`.
  A capture reports -1 when the sensor fails. Otherwise it reports the number of
  observations in the buffer. Captures need a stopped stream, and pose
  estimation needs a non-empty buffer. The loop is proved to respect both.
- `Collector` (`collector.dfy`): the collection loop as pure functions over a
  scripted environment, and the lemmas about it. One `Round` is the move
  service's answer (a failed call, or a reply with a success flag and a robot
  pose), the detector's answer to each of the five capture attempts, and the
  estimator's answer. `CaptureFrom` is the capture loop, `StepOf` one
  iteration, `Collect` the loop and `Calibrate` the whole run with the solver
  hand-off.
- `Handeye` (`handeye_calibration.dfy`): the class `HandeyeCalibration` whose
  `PerformCalibration` is the loop itself: a `while` over the rounds with the
  inner capture loop, `break` and `continue`. It drives the grabber object, and
  it is proved to end in the state and with the result that `Calibrate`
  describes.
- `Scenarios` (`scenarios.dfy`): concrete runs: a planning failure after two
  samples, a threshold reached on the fifth attempt, a sensor failure after the
  threshold, a failed service call, a failing solver, and a clean run.

Poses are an opaque type parameter. The environment is scripted. Running out
of rounds stands for `ros::ok()` turning false. A boolean stands for the outcome
of the solver call.

Where the code differs from the intended design, the model follows the code:

- When the move service call itself fails, the iteration is only logged and the
  loop goes on. It does not abort (`FailedCallContinues`, `SkippedRoundIsInert`).
- The capture loop does not stop when three patterns are buffered. It always
  makes five attempts unless one reports -1. So a sensor failure after the
  threshold discards the iteration (`CaptureKeeps`,
  `SensorErrorAfterThresholdDiscards`).
- When `ros::ok()` turns false before the target is reached, the loop still
  falls through to the solver call with the samples it has (`Ending.Shutdown`
  in `CalibrateOutcome`).
- `num_pose` is an `int` compared with an unsigned 64-bit size, so a negative
  target is read modulo 2^64 (`PoseLimit`).

## Model

| member | source | states |
|---|---|---|
| `Ensenso.EnsensoGrabber.constructor` | src/handeye_calibration.cpp:39 | the grabber starts in any streaming/buffer state an earlier session left |
| `Ensenso.EnsensoGrabber.Start` | src/handeye_calibration.cpp:143 | streaming is on; the buffer and grid spacing are unchanged |
| `Ensenso.EnsensoGrabber.Stop` | src/handeye_calibration.cpp:154 | streaming is off; the buffer and grid spacing are unchanged |
| `Ensenso.EnsensoGrabber.ClearCalibrationPatternBuffer` | src/handeye_calibration.cpp:155 | the buffer is empty; streaming is left as it was |
| `Ensenso.EnsensoGrabber.InitExtrinsicCalibration` | src/handeye_calibration.cpp:112 | the grid spacing is the one given; nothing else changes |
| `Ensenso.EnsensoGrabber.CaptureCalibrationPattern` | src/handeye_calibration.cpp:159 | only on a stopped stream; reports -1 exactly on a sensor failure, otherwise the buffered pattern count, which grows by one when the pattern is found |
| `Ensenso.EnsensoGrabber.EstimateCalibrationPatternPose` | src/handeye_calibration.cpp:171 | needs a non-empty buffer; gives the estimator's pose |
| `Collector.PoseLimit` | src/handeye_calibration.cpp:140 | the target the guard compares against is below 2^64 and congruent to `num_pose` modulo 2^64 |
| `Collector.CaptureFrom` | src/handeye_calibration.cpp:157-166 | the capture loop never makes more attempts than there are, and at least as many as already made |
| `Collector.CaptureFromFacts` | src/handeye_calibration.cpp:157-166 | from any attempt on: at least one more attempt; stopping early means a -1 report; the last report is -1 exactly when that attempt failed; no earlier attempt failed; a report other than -1 equals the patterns found so far |
| `Collector.CaptureBounds` | src/handeye_calibration.cpp:157-166 | one to five attempts per iteration, leaving early only on -1; a report other than -1 counts exactly this iteration's found patterns |
| `Collector.CaptureKeeps` | src/handeye_calibration.cpp:157-168 | the last report is at least 3 exactly when no attempt failed and at least three attempts found the pattern |
| `Collector.StepCases` | src/handeye_calibration.cpp:145-177 | an iteration aborts exactly on a reply with success false; it records a sample exactly on a successful reply whose captures reach the threshold, and the sample is that reply's robot pose with that iteration's estimate |
| `Collector.CollectLockstep` | src/handeye_calibration.cpp:173-177 | the robot-pose and pattern-pose lists keep equal lengths through the loop |
| `Collector.CollectBound` | src/handeye_calibration.cpp:140-179 | the lists never outgrow the target, and collection ends as complete exactly when they hold the target count |
| `Collector.CollectEnding` | src/handeye_calibration.cpp:140-183 | a planning failure is the last iteration run and the first that failed; otherwise no iteration failed; running out of rounds means every round ran |
| `Collector.AbortIgnoresLaterRounds` | src/handeye_calibration.cpp:145-151 | nothing after a planning failure is run: the rounds after it do not affect the result |
| `Collector.SkippedRoundIsInert` | src/handeye_calibration.cpp:145-182 | an iteration with a failed call or too few patterns changes neither list nor how the run ends; the loop goes on to the next round |
| `Collector.CollectRecords` | src/handeye_calibration.cpp:169-177 | the lists are exactly the samples of the iterations run, in order, entry i of both from the same iteration |
| `Collector.RecordedFromRounds` | src/handeye_calibration.cpp:169-177 | at most one sample per iteration, and each pairs a successful reply's robot pose with the estimate of the same iteration, whose captures reached the threshold |
| `Collector.CalibrateOutcome` | src/handeye_calibration.cpp:184-208 | the run succeeds exactly when planning never failed and the solver call succeeds; the solver is called exactly when planning never failed and gets the full index-aligned lists, which hold the target count unless ROS shut down first |
| `Handeye.HandeyeCalibration.constructor` | src/handeye_calibration.cpp:131-138 | both pose lists start empty and no solver request has been made |
| `Handeye.HandeyeCalibration.PerformCalibration` | src/handeye_calibration.cpp:106-210 | the loop's result, final pose lists and solver request are those of `Calibrate` for the same target, rounds and solver outcome; every capture runs on a stopped stream and every estimate on a non-empty buffer |
| `Scenarios.PlanningFailureStopsRun` | src/handeye_calibration.cpp:145-151 | two samples then a planning failure: failure, two samples kept, no solver call |
| `Scenarios.FifthAttemptReachesThreshold` | src/handeye_calibration.cpp:157-177 | reports 0, 0, 1, 2, 3: the iteration is recorded with its own estimate |
| `Scenarios.SensorErrorAfterThresholdDiscards` | src/handeye_calibration.cpp:157-168 | three patterns then a sensor failure: the iteration is discarded and the next one is recorded |
| `Scenarios.FailedCallContinues` | src/handeye_calibration.cpp:181-182 | a failed service call records nothing and the run still succeeds |
| `Scenarios.SolverFailureFailsRun` | src/handeye_calibration.cpp:193-208 | a full sample set and a failing solver: failure after sending all samples |
| `Scenarios.ThreeGoodRoundsSucceed` | src/handeye_calibration.cpp:140-204 | a target of three and good iterations: success with exactly three samples, no fourth iteration |

## Left out

- `grabberCallback` (image republishing) is I/O on an asynchronous camera callback and is not modelled.
- The constructor's device setup, its hard-coded configuration and the destructor are foreign hardware calls; the grabber stub starts in an arbitrary state instead.
- ROS service discovery and waits, `serviceClient`, `ros::Time::now()`, frame ids and `main` are left out; `ros::ok()` is modelled as rounds remaining.
- The move request (pattern pose prior, radius 0.50, no return to the initial pose) is the same on every call; the model scripts the replies and does not carry the request.
- Poses are opaque: the Eigen/tf conversions, and the solver's transform that the source only prints, are not modelled. The solver call is a success flag.
- Pattern detection, pose estimation, motion planning and the AX=XB solve are external; the grabber stub's count-or-minus-one report is this model's reading of the capture call.
- `sleep` calls and all console and ROS logging are left out.
- The pose lists are locals of `performCalibration` in the source; here they are fields of the class, so their state after a planning failure can be stated.
- Handeye.HandeyeCalibration.PerformCalibration: the streaming flag and buffer count the grabber is left with are not stated, only its grid spacing.

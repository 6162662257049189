/** The calibration node's collection run, written as the loop it is and
    proved to behave as `Collector.Calibrate` describes. */
module Handeye {
  import opened Ensenso
  import opened Collector

  class HandeyeCalibration<P> {
    const grabber: EnsensoGrabber
    var robotPoses: seq<P>     // robot poses sent with the solver request
    var patternPoses: seq<P>   // pattern-to-camera poses sent with it
    var solverRequest: Option<SolverRequest<P>>  // what the solver service was sent, if called

    constructor (grabber: EnsensoGrabber)
      ensures this.grabber == grabber
      ensures robotPoses == [] && patternPoses == [] && solverRequest == None
    {
      this.grabber := grabber;
      robotPoses := [];
      patternPoses := [];
      solverRequest := None;
    }

    /** Collects robot/pattern pose pairs until `numPose` exist, then calls
        the AX=XB solver. `rounds` scripts the move service, the detector and
        the estimator for each iteration (running out of rounds is ROS
        shutting down); `solverOk` is whether the solver call succeeds. */
    method PerformCalibration(numPose: int32, gridSpacing: real, rounds: seq<Round<P>>, solverOk: bool)
      returns (ok: bool)
      modifies this, grabber
      ensures var run := Calibrate(PoseLimit(numPose), rounds, solverOk);
        && ok == run.success
        && robotPoses == run.collection.robotPoses
        && patternPoses == run.collection.patternPoses
        && solverRequest == run.request
      ensures grabber.gridSpacing == gridSpacing
    {
      grabber.Stop();
      grabber.ClearCalibrationPatternBuffer();
      grabber.InitExtrinsicCalibration(gridSpacing);
      grabber.Start();

      var limit := PoseLimit(numPose);
      robotPoses, patternPoses, solverRequest := [], [], None;
      var k := 0;
      while k < |rounds| && |robotPoses| < limit
        invariant 0 <= k <= |rounds|
        invariant Collect(limit, rounds, [], []) == Later(Collect(limit, rounds[k..], robotPoses, patternPoses), k)
        invariant solverRequest == None
        invariant grabber.gridSpacing == gridSpacing
        decreases |rounds| - k
      {
        var round := rounds[k];
        assert rounds[k..][1..] == rounds[k + 1..];
        k := k + 1;
        grabber.Start();
        match round.move
        case CallFailed =>
          // the failed call is logged and the loop goes on
        case Replied(success, robotPose) =>
          if !success {
            return false;
          }
          grabber.Stop();
          grabber.ClearCalibrationPatternBuffer();
          // the source leaves this unset until the first attempt, which always runs
          var executeCapturing := 0;
          var i := 0;
          while i < MaxAttempts
            modifies grabber
            invariant 0 <= i <= MaxAttempts
            invariant !grabber.streaming
            invariant CaptureFrom(round.attempts, i, grabber.patterns, executeCapturing) == CaptureAttempts(round.attempts)
            invariant i > 0 ==> executeCapturing == grabber.patterns
            invariant grabber.gridSpacing == gridSpacing
          {
            executeCapturing := grabber.CaptureCalibrationPattern(round.attempts[i]);
            if executeCapturing == -1 {
              break;
            }
            i := i + 1;
          }
          if executeCapturing < MinPatterns {
            continue;
          }
          var pose := grabber.EstimateCalibrationPatternPose(round.estimate);
          patternPoses := patternPoses + [pose];
          grabber.ClearCalibrationPatternBuffer();
          robotPoses := robotPoses + [robotPose];
      }
      solverRequest := Some(SolverRequest(robotPoses, patternPoses));
      ok := solverOk;
    }
  }
}

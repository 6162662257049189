/** A stand-in for the stereo camera grabber that the calibration node drives.
    Only the state the collection loop touches is kept: whether the camera is
    streaming, how many calibration-pattern observations sit in the pattern
    buffer, and the grid spacing of extrinsic-calibration mode. What the
    pattern detector sees on each attempt is scripted as a Detection. */
module Ensenso {

  /** Outcome of one pattern-capture attempt, as the detector would report it. */
  datatype Detection = PatternFound | PatternMissed | SensorError

  /** Number of attempts in `s` that added a pattern observation to the buffer. */
  function Found(s: seq<Detection>): (n: nat)
    ensures n <= |s|
  {
    if s == [] then 0
    else Found(s[..|s| - 1]) + (if s[|s| - 1] == PatternFound then 1 else 0)
  }

  class EnsensoGrabber {
    var streaming: bool
    var patterns: nat      // observations in the calibration-pattern buffer
    var gridSpacing: real  // set by InitExtrinsicCalibration

    /** A grabber in whatever state an earlier session left it. */
    constructor (streaming: bool, patterns: nat, gridSpacing: real)
      ensures this.streaming == streaming && this.patterns == patterns
      ensures this.gridSpacing == gridSpacing
    {
      this.streaming := streaming;
      this.patterns := patterns;
      this.gridSpacing := gridSpacing;
    }

    method Start()
      modifies this
      ensures streaming
      ensures patterns == old(patterns) && gridSpacing == old(gridSpacing)
    {
      streaming := true;
    }

    method Stop()
      modifies this
      ensures !streaming
      ensures patterns == old(patterns) && gridSpacing == old(gridSpacing)
    {
      streaming := false;
    }

    /** Discards buffered observations; streaming is left as it was. */
    method ClearCalibrationPatternBuffer()
      modifies this
      ensures patterns == 0
      ensures streaming == old(streaming) && gridSpacing == old(gridSpacing)
    {
      patterns := 0;
    }

    method InitExtrinsicCalibration(spacing: real)
      modifies this
      ensures gridSpacing == spacing
      ensures streaming == old(streaming) && patterns == old(patterns)
    {
      gridSpacing := spacing;
    }

    /** One capture attempt. Reports -1 when the sensor fails, and otherwise the
        number of observations buffered after the attempt. Observations are read
        only from a stopped stream. */
    method CaptureCalibrationPattern(d: Detection) returns (count: int)
      requires !streaming
      modifies this
      ensures patterns == old(patterns) + (if d == PatternFound then 1 else 0)
      ensures count == (if d == SensorError then -1 else patterns)
      ensures streaming == old(streaming) && gridSpacing == old(gridSpacing)
    {
      if d == PatternFound {
        patterns := patterns + 1;
      }
      count := if d == SensorError then -1 else patterns;
    }

    /** Pose estimation is external: `estimate` is what the estimator answers.
        It needs at least one buffered observation. */
    method EstimateCalibrationPatternPose<P>(estimate: P) returns (pose: P)
      requires patterns > 0
      ensures pose == estimate
    {
      pose := estimate;
    }
  }
}

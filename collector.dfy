/** The pose-pair collection loop of the hand-eye calibration node, as pure
    functions over a scripted environment, and what it guarantees.

    The environment of one loop iteration is a Round: the reply of the
    random-move service, what the pattern detector sees on each of the five
    capture attempts, and the pose the pattern-pose estimator answers. The loop
    runs while rounds remain (`ros::ok()`) and fewer samples than the target
    exist. */
module Collector {
  import opened Ensenso

  /** Capture attempts per iteration, and the pattern count an iteration needs. */
  const MaxAttempts: nat := 5
  const MinPatterns: int := 3

  /** The detector's answer to each of the attempts an iteration may make. */
  type AttemptScript = s: seq<Detection> | |s| == MaxAttempts
    witness [PatternMissed, PatternMissed, PatternMissed, PatternMissed, PatternMissed]

  datatype Option<T> = None | Some(value: T)

  /** A failed service call, or the service's reply. */
  datatype MoveReply<P> = CallFailed | Replied(success: bool, robotPose: P)

  datatype Round<P> = Round(move: MoveReply<P>, attempts: AttemptScript, estimate: P)

  /** How many capture attempts ran, what the last one reported, and the
      pattern count left in the buffer. */
  datatype Capture = Capture(attempts: nat, last: int, patterns: nat)

  datatype Sample<P> = Sample(robotPose: P, patternPose: P)

  /** What one iteration does to the run. */
  datatype Step<P> = Abort | Skip | Record(sample: Sample<P>)

  datatype Ending = Collected | Shutdown | PlanningFailed

  datatype Collection<P> = Collection(ending: Ending, robotPoses: seq<P>, patternPoses: seq<P>, iterations: nat)

  datatype SolverRequest<P> = SolverRequest(robotPoses: seq<P>, patternPoses: seq<P>)

  datatype Outcome<P> = Outcome(success: bool, collection: Collection<P>, request: Option<SolverRequest<P>>)

  newtype int32 = x: int | -0x8000_0000 <= x < 0x8000_0000

  const SizeRange: nat := 0x1_0000_0000_0000_0000

  /** The sample target as the loop guard sees it: `num_pose` is an `int`
      compared with a 64-bit unsigned size, so it is converted modulo 2^64. */
  function PoseLimit(numPose: int32): (limit: nat)
    ensures limit < SizeRange
    ensures (limit - numPose as int) % SizeRange == 0
  {
    if numPose >= 0 then numPose as nat else (numPose as int + SizeRange) as nat
  }

  /** The capture loop from attempt `i`, with `n` buffered observations and
      `last` the most recent report. It stops after a report of -1 or when the
      attempts run out; reaching the pattern threshold does not stop it. */
  function CaptureFrom(dets: seq<Detection>, i: nat, n: nat, last: int): (c: Capture)
    requires i <= |dets|
    ensures i <= c.attempts <= |dets|
    decreases |dets| - i
  {
    if i == |dets| then Capture(i, last, n)
    else if dets[i] == SensorError then Capture(i + 1, -1, n)
    else
      var n' := n + (if dets[i] == PatternFound then 1 else 0);
      CaptureFrom(dets, i + 1, n', n')
  }

  /** One iteration's capture loop, run on a freshly cleared buffer. */
  function CaptureAttempts(dets: AttemptScript): Capture
  {
    CaptureFrom(dets, 0, 0, 0)
  }

  lemma {:induction false} CaptureFromFacts(dets: seq<Detection>, i: nat, n: nat, last: int)
    requires i < |dets| && n == Found(dets[..i])
    ensures var c := CaptureFrom(dets, i, n, last);
      && i < c.attempts
      && (c.attempts < |dets| ==> c.last == -1)
      && (c.last == -1 <==> dets[c.attempts - 1] == SensorError)
      && (forall j :: i <= j < c.attempts - 1 ==> dets[j] != SensorError)
      && c.patterns == Found(dets[..c.attempts])
      && (c.last != -1 ==> c.last == c.patterns)
    decreases |dets| - i
  {
    assert dets[..i + 1][..i] == dets[..i];
    if dets[i] != SensorError && i + 1 < |dets| {
      var n' := n + (if dets[i] == PatternFound then 1 else 0);
      CaptureFromFacts(dets, i + 1, n', n');
    }
  }

  /** An iteration reaches the pattern threshold exactly when no attempt fails
      and at least three of the five attempts find the pattern. */
  lemma CaptureKeeps(dets: AttemptScript)
    ensures CaptureAttempts(dets).last >= MinPatterns
        <==> SensorError !in dets && Found(dets) >= MinPatterns
  {
    CaptureFromFacts(dets, 0, 0, 0);
    assert dets[..|dets|] == dets;
  }

  /** Each iteration makes at most five attempts and leaves early only on a
      report of -1; a report other than -1 is the buffered pattern count of
      this iteration alone. */
  lemma CaptureBounds(dets: AttemptScript)
    ensures var c := CaptureAttempts(dets);
      && 1 <= c.attempts <= MaxAttempts
      && (c.attempts < MaxAttempts ==> c.last == -1)
      && (c.last == -1 <==> dets[c.attempts - 1] == SensorError)
      && (forall j :: 0 <= j < c.attempts - 1 ==> dets[j] != SensorError)
      && (c.last != -1 ==> c.last == c.patterns == Found(dets))
  {
    CaptureFromFacts(dets, 0, 0, 0);
    assert dets[..|dets|] == dets;
  }

  function StepOf<P>(r: Round<P>): Step<P>
  {
    match r.move
    case CallFailed => Skip
    case Replied(success, robotPose) =>
      if !success then Abort
      else if CaptureAttempts(r.attempts).last < MinPatterns then Skip
      else Record(Sample(robotPose, r.estimate))
  }

  /** A round aborts exactly when the service replies with success false; it
      records a sample exactly when the reply is a success and its captures
      reach the threshold, and the sample pairs that reply's robot pose with
      that round's estimate. */
  lemma StepCases<P>(r: Round<P>)
    ensures StepOf(r) == Abort <==> r.move.Replied? && !r.move.success
    ensures StepOf(r).Record?
        <==> r.move.Replied? && r.move.success && SensorError !in r.attempts && Found(r.attempts) >= MinPatterns
    ensures StepOf(r).Record? ==> StepOf(r).sample == Sample(r.move.robotPose, r.estimate)
  {
    CaptureKeeps(r.attempts);
  }

  function Later<P>(c: Collection<P>, k: nat): Collection<P>
  {
    c.(iterations := c.iterations + k)
  }

  /** The collection loop from the given lists on. */
  function Collect<P>(limit: nat, rounds: seq<Round<P>>, robot: seq<P>, pattern: seq<P>): Collection<P>
    decreases |rounds|
  {
    if |robot| >= limit then Collection(Collected, robot, pattern, 0)
    else if rounds == [] then Collection(Shutdown, robot, pattern, 0)
    else match StepOf(rounds[0])
      case Abort => Collection(PlanningFailed, robot, pattern, 1)
      case Skip => Later(Collect(limit, rounds[1..], robot, pattern), 1)
      case Record(s) =>
        Later(Collect(limit, rounds[1..], robot + [s.robotPose], pattern + [s.patternPose]), 1)
  }

  /** The samples the given rounds record, in order. */
  function Recorded<P>(rounds: seq<Round<P>>): seq<Sample<P>>
    decreases |rounds|
  {
    if rounds == [] then []
    else (match StepOf(rounds[0]) case Record(s) => [s] case _ => []) + Recorded(rounds[1..])
  }

  function RobotPoses<P>(samples: seq<Sample<P>>): seq<P>
  {
    seq(|samples|, i requires 0 <= i < |samples| => samples[i].robotPose)
  }

  function PatternPoses<P>(samples: seq<Sample<P>>): seq<P>
  {
    seq(|samples|, i requires 0 <= i < |samples| => samples[i].patternPose)
  }

  /** The two lists leave each round with equal lengths. */
  lemma {:induction false} CollectLockstep<P>(limit: nat, rounds: seq<Round<P>>, robot: seq<P>, pattern: seq<P>)
    requires |robot| == |pattern|
    ensures var c := Collect(limit, rounds, robot, pattern);
      |c.robotPoses| == |c.patternPoses|
    decreases |rounds|
  {
    if |robot| < limit && rounds != [] {
      match StepOf(rounds[0])
      case Abort =>
      case Skip => CollectLockstep(limit, rounds[1..], robot, pattern);
      case Record(s) =>
        CollectLockstep(limit, rounds[1..], robot + [s.robotPose], pattern + [s.patternPose]);
    }
  }

  /** Collection never overshoots the target, and it ends as Collected exactly
      when the target is met. */
  lemma {:induction false} CollectBound<P>(limit: nat, rounds: seq<Round<P>>, robot: seq<P>, pattern: seq<P>)
    requires |robot| <= limit
    ensures var c := Collect(limit, rounds, robot, pattern);
      && |robot| <= |c.robotPoses| <= limit
      && (c.ending == Collected <==> |c.robotPoses| == limit)
    decreases |rounds|
  {
    if |robot| < limit && rounds != [] {
      match StepOf(rounds[0])
      case Abort =>
      case Skip => CollectBound(limit, rounds[1..], robot, pattern);
      case Record(s) =>
        CollectBound(limit, rounds[1..], robot + [s.robotPose], pattern + [s.patternPose]);
    }
  }

  /** A planning failure ends the loop in the round that reports it: it is the
      last round run, and no earlier round failed; otherwise no round run
      failed, and running out of rounds means all were run. */
  lemma {:induction false} CollectEnding<P>(limit: nat, rounds: seq<Round<P>>, robot: seq<P>, pattern: seq<P>)
    ensures var c := Collect(limit, rounds, robot, pattern);
      && c.iterations <= |rounds|
      && (c.ending == PlanningFailed ==> 0 < c.iterations && StepOf(rounds[c.iterations - 1]) == Abort)
      && (forall j :: 0 <= j < c.iterations - 1 ==> StepOf(rounds[j]) != Abort)
      && (c.ending != PlanningFailed ==> forall j :: 0 <= j < c.iterations ==> StepOf(rounds[j]) != Abort)
      && (c.ending == Shutdown ==> c.iterations == |rounds|)
    decreases |rounds|
  {
    if |robot| < limit && rounds != [] {
      match StepOf(rounds[0])
      case Abort =>
      case Skip =>
        CollectEnding(limit, rounds[1..], robot, pattern);
        LaterRounds(rounds, Collect(limit, rounds[1..], robot, pattern).iterations);
      case Record(s) =>
        CollectEnding(limit, rounds[1..], robot + [s.robotPose], pattern + [s.patternPose]);
        LaterRounds(rounds, Collect(limit, rounds[1..], robot + [s.robotPose], pattern + [s.patternPose]).iterations);
    }
  }

  /** Rounds of the tail, seen from the whole script. */
  lemma LaterRounds<P>(rounds: seq<Round<P>>, m: nat)
    requires 0 < |rounds| && m < |rounds|
    ensures forall j :: 0 <= j < m ==> rounds[1..][j] == rounds[j + 1]
  {
  }

  /** Rounds after a planning failure are never run. */
  lemma {:induction false} AbortIgnoresLaterRounds<P>(limit: nat, rounds: seq<Round<P>>, robot: seq<P>, pattern: seq<P>, j: nat)
    requires j < |rounds| && StepOf(rounds[j]) == Abort
    ensures Collect(limit, rounds, robot, pattern) == Collect(limit, rounds[..j + 1], robot, pattern)
    decreases j
  {
    var prefix := rounds[..j + 1];
    assert prefix[0] == rounds[0];
    if j > 0 && |robot| < limit {
      assert prefix[1..] == rounds[1..][..j];
      match StepOf(rounds[0])
      case Abort =>
      case Skip => AbortIgnoresLaterRounds(limit, rounds[1..], robot, pattern, j - 1);
      case Record(s) =>
        AbortIgnoresLaterRounds(limit, rounds[1..], robot + [s.robotPose], pattern + [s.patternPose], j - 1);
    }
  }

  /** A round the loop reaches that records nothing (a failed service call or
      too few patterns) leaves both lists and the way the run ends exactly as
      if it had not been there; the loop just goes on to the next round. */
  lemma {:induction false} SkippedRoundIsInert<P>(limit: nat, rounds: seq<Round<P>>, robot: seq<P>, pattern: seq<P>, j: nat)
    requires j < |rounds| && StepOf(rounds[j]) == Skip
    requires j < Collect(limit, rounds, robot, pattern).iterations
    ensures var c := Collect(limit, rounds, robot, pattern);
      var d := Collect(limit, rounds[..j] + rounds[j + 1..], robot, pattern);
      && c.ending == d.ending && c.robotPoses == d.robotPoses && c.patternPoses == d.patternPoses
      && c.iterations == d.iterations + 1
    decreases j
  {
    var rest := rounds[..j] + rounds[j + 1..];
    if j == 0 {
      assert rest == rounds[1..];
    } else {
      assert rest[0] == rounds[0];
      assert rest[1..] == rounds[1..][..j - 1] + rounds[1..][j..];
      match StepOf(rounds[0])
      case Abort =>
      case Skip => SkippedRoundIsInert(limit, rounds[1..], robot, pattern, j - 1);
      case Record(s) =>
        SkippedRoundIsInert(limit, rounds[1..], robot + [s.robotPose], pattern + [s.patternPose], j - 1);
    }
  }

  lemma PosesCons<P>(s: Sample<P>, samples: seq<Sample<P>>)
    ensures RobotPoses([s] + samples) == [s.robotPose] + RobotPoses(samples)
    ensures PatternPoses([s] + samples) == [s.patternPose] + PatternPoses(samples)
  {
  }

  /** The lists hold exactly the samples of the rounds run, in order and
      index-aligned: entry i of both lists comes from the same round. */
  lemma {:induction false} CollectRecords<P>(limit: nat, rounds: seq<Round<P>>, robot: seq<P>, pattern: seq<P>)
    ensures var c := Collect(limit, rounds, robot, pattern);
      && c.iterations <= |rounds|
      && c.robotPoses == robot + RobotPoses(Recorded(rounds[..c.iterations]))
      && c.patternPoses == pattern + PatternPoses(Recorded(rounds[..c.iterations]))
    decreases |rounds|
  {
    var c := Collect(limit, rounds, robot, pattern);
    if |robot| >= limit || rounds == [] {
      assert rounds[..0] == [];
    } else {
      match StepOf(rounds[0])
      case Abort =>
        assert rounds[..c.iterations] == [rounds[0]];
      case Skip =>
        CollectRecords(limit, rounds[1..], robot, pattern);
        var first := rounds[..c.iterations];
        assert first[0] == rounds[0];
        assert first[1..] == rounds[1..][..c.iterations - 1];
      case Record(s) =>
        CollectRecords(limit, rounds[1..], robot + [s.robotPose], pattern + [s.patternPose]);
        var first := rounds[..c.iterations];
        assert first[0] == rounds[0];
        assert first[1..] == rounds[1..][..c.iterations - 1];
        PosesCons(s, Recorded(first[1..]));
    }
  }

  /** `s` pairs the robot pose of a successful move reply in round `r` with
      the estimate of that same round, whose captures reached the threshold. */
  ghost predicate FromRound<P>(s: Sample<P>, r: Round<P>)
  {
    && r.move == Replied(true, s.robotPose)
    && r.estimate == s.patternPose
    && SensorError !in r.attempts
    && Found(r.attempts) >= MinPatterns
  }

  /** At most one sample per round, and every sample pairs the robot pose of a
      successful move reply with the estimate of that same round. */
  lemma {:induction false} RecordedFromRounds<P>(rounds: seq<Round<P>>)
    ensures |Recorded(rounds)| <= |rounds|
    ensures forall s :: s in Recorded(rounds) ==> exists r :: r in rounds && FromRound(s, r)
    decreases |rounds|
  {
    if rounds != [] {
      RecordedFromRounds(rounds[1..]);
      StepCases(rounds[0]);
      forall s | s in Recorded(rounds)
        ensures exists r :: FromRound(s, r) && r in rounds
      {
        if s !in Recorded(rounds[1..]) {
          assert rounds[0] in rounds;
        } else {
          var r :| r in rounds[1..] && FromRound(s, r);
          assert r in rounds;
        }
      }
    }
  }

  /** The whole run: collect from empty lists, then hand the lists to the
      solver unless planning failed. `solverOk` is whether the solver call
      succeeds. */
  function Calibrate<P>(limit: nat, rounds: seq<Round<P>>, solverOk: bool): Outcome<P>
  {
    var c := Collect(limit, rounds, [], []);
    if c.ending == PlanningFailed then Outcome(false, c, None)
    else Outcome(solverOk, c, Some(SolverRequest(c.robotPoses, c.patternPoses)))
  }

  /** The run succeeds exactly when planning never failed and the solver call
      succeeded; the solver is called exactly when planning never failed, and
      then receives the full, index-aligned lists of recorded samples, which
      hold the target count unless the rounds ran out first. */
  lemma CalibrateOutcome<P>(limit: nat, rounds: seq<Round<P>>, solverOk: bool)
    ensures var o := Calibrate(limit, rounds, solverOk);
      var c := o.collection;
      && (o.success <==> c.ending != PlanningFailed && solverOk)
      && (o.request == None <==> c.ending == PlanningFailed)
      && |c.robotPoses| == |c.patternPoses| <= limit
      && (c.ending == Collected <==> |c.robotPoses| == limit)
      && c.iterations <= |rounds|
      && (c.ending == Shutdown ==> c.iterations == |rounds|)
      && (o.request.Some? ==>
            && o.request.value.robotPoses == RobotPoses(Recorded(rounds[..c.iterations]))
            && o.request.value.patternPoses == PatternPoses(Recorded(rounds[..c.iterations])))
  {
    CollectLockstep(limit, rounds, [], []);
    CollectBound(limit, rounds, [], []);
    CollectEnding(limit, rounds, [], []);
    CollectRecords(limit, rounds, [], []);
  }
}

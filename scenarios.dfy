/** Concrete runs of the collection loop, with poses stood in for by integers. */
module Scenarios {
  import opened Ensenso
  import opened Collector

  const AllFound: AttemptScript := [PatternFound, PatternFound, PatternFound, PatternFound, PatternFound]

  /** A round whose move succeeds and whose five captures all find the pattern. */
  function Good(robotPose: int, patternPose: int): Round<int>
  {
    Round(Replied(true, robotPose), AllFound, patternPose)
  }

  lemma GoodRecords(robotPose: int, patternPose: int)
    ensures StepOf(Good(robotPose, patternPose)) == Record(Sample(robotPose, patternPose))
  {
  }

  /** The first three of `rounds` are the good rounds 1/10, 2/20 and 3/30. */
  lemma ThreeGood(rounds: seq<Round<int>>, n: nat)
    requires 3 <= n == |rounds| && rounds[..3] == [Good(1, 10), Good(2, 20), Good(3, 30)]
    ensures Collect(3, rounds, [], []) == Collection(Collected, [1, 2, 3], [10, 20, 30], 3)
  {
    GoodRecords(1, 10);
    GoodRecords(2, 20);
    GoodRecords(3, 30);
    assert rounds[0] == Good(1, 10) && rounds[1..][0] == Good(2, 20) && rounds[1..][1..][0] == Good(3, 30);
    assert [1] + [2] == [1, 2] && [10] + [20] == [10, 20];
    assert [1, 2] + [3] == [1, 2, 3] && [10, 20] + [30] == [10, 20, 30];
    var r2, r3 := rounds[1..], rounds[1..][1..];
    assert Collect(3, r3, [1, 2], [10, 20]) == Collection(Collected, [1, 2, 3], [10, 20, 30], 1);
    assert Collect(3, r2, [1], [10]) == Collection(Collected, [1, 2, 3], [10, 20, 30], 2);
    assert [] + [1] == [1] && [] + [10] == [10];
  }

  /** Two samples, then the planner fails: the run fails at once with both
      samples kept, and the solver is never called. */
  lemma PlanningFailureStopsRun()
    ensures Calibrate(5, [Good(1, 10), Good(2, 20), Round(Replied(false, 3), AllFound, 30), Good(4, 40)], true)
         == Outcome(false, Collection(PlanningFailed, [1, 2], [10, 20], 3), None)
  {
    var failed := Round(Replied(false, 3), AllFound, 30);
    var rs := [Good(1, 10), Good(2, 20), failed, Good(4, 40)];
    GoodRecords(1, 10);
    GoodRecords(2, 20);
    assert rs[1..] == [Good(2, 20), failed, Good(4, 40)];
    assert rs[1..][1..] == [failed, Good(4, 40)];
    assert Collect(5, rs[1..][1..], [1, 2], [10, 20]) == Collection(PlanningFailed, [1, 2], [10, 20], 1);
    assert [1] + [2] == [1, 2] && [10] + [20] == [10, 20];
    assert Collect(5, rs[1..], [1], [10]) == Collection(PlanningFailed, [1, 2], [10, 20], 2);
    assert [] + [1] == [1] && [] + [10] == [10];
    assert Collect(5, rs, [], []) == Collection(PlanningFailed, [1, 2], [10, 20], 3);
  }

  /** Reports 0, 0, 1, 2 stay below the threshold and the fifth report, 3,
      reaches it: the round is recorded with its own estimate. */
  lemma FifthAttemptReachesThreshold()
    ensures var dets: AttemptScript := [PatternMissed, PatternMissed, PatternFound, PatternFound, PatternFound];
      Collect(1, [Round(Replied(true, 7), dets, 70)], [], []) == Collection(Collected, [7], [70], 1)
  {
    var dets: AttemptScript := [PatternMissed, PatternMissed, PatternFound, PatternFound, PatternFound];
    CaptureBounds(dets);
    assert dets[..4][..3][..2] == [PatternMissed, PatternMissed];
    assert Found(dets[..4][..3][..2]) == 0;
    assert Found(dets) == 3;
    var rs := [Round(Replied(true, 7), dets, 70)];
    assert rs[1..] == [];
  }

  /** Three patterns are buffered after the third attempt, yet a sensor
      failure on the fourth discards the round: the attempts do not stop at
      the threshold. The loop goes on with the next move request. */
  lemma SensorErrorAfterThresholdDiscards()
    ensures var dets: AttemptScript := [PatternFound, PatternFound, PatternFound, SensorError, PatternFound];
      Collect(1, [Round(Replied(true, 7), dets, 70), Good(8, 80)], [], []) == Collection(Collected, [8], [80], 2)
  {
    var dets: AttemptScript := [PatternFound, PatternFound, PatternFound, SensorError, PatternFound];
    CaptureBounds(dets);
    assert dets[3] == SensorError;
    var rs := [Round(Replied(true, 7), dets, 70), Good(8, 80)];
    GoodRecords(8, 80);
    assert StepOf(rs[0]) == Skip;
    assert rs[1..] == [Good(8, 80)];
    assert rs[1..][1..] == [];
    assert [] + [8] == [8] && [] + [80] == [80];
    assert Collect(1, rs[1..], [], []) == Collection(Collected, [8], [80], 1);
  }

  /** A failed service call records nothing and does not abort the run. */
  lemma FailedCallContinues()
    ensures Calibrate(1, [Round(CallFailed, AllFound, 0), Good(8, 80)], true)
         == Outcome(true, Collection(Collected, [8], [80], 2), Some(SolverRequest([8], [80])))
  {
    var rs := [Round(CallFailed, AllFound, 0), Good(8, 80)];
    GoodRecords(8, 80);
    assert rs[1..] == [Good(8, 80)];
    assert rs[1..][1..] == [];
    assert [] + [8] == [8] && [] + [80] == [80];
    assert Collect(1, rs[1..], [], []) == Collection(Collected, [8], [80], 1);
    assert Collect(1, rs, [], []) == Collection(Collected, [8], [80], 2);
  }

  /** Three good rounds and a failing solver: the run fails after handing the
      solver all three samples. */
  lemma SolverFailureFailsRun()
    ensures Calibrate(3, [Good(1, 10), Good(2, 20), Good(3, 30)], false)
         == Outcome(false, Collection(Collected, [1, 2, 3], [10, 20, 30], 3), Some(SolverRequest([1, 2, 3], [10, 20, 30])))
  {
    var rs := [Good(1, 10), Good(2, 20), Good(3, 30)];
    ThreeGood(rs, 3);
  }

  /** Three good rounds and a working solver: the run succeeds with exactly
      three samples; a fourth round is never run. */
  lemma ThreeGoodRoundsSucceed()
    ensures Calibrate(3, [Good(1, 10), Good(2, 20), Good(3, 30), Good(4, 40)], true)
         == Outcome(true, Collection(Collected, [1, 2, 3], [10, 20, 30], 3), Some(SolverRequest([1, 2, 3], [10, 20, 30])))
  {
    var rs := [Good(1, 10), Good(2, 20), Good(3, 30), Good(4, 40)];
    ThreeGood(rs, 4);
  }
}

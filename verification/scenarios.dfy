/**
  Concrete runs of the execute thread: a goal accepted by a fresh controller
  meets a fixed script of events, and the contracts of the waits, of
  processGoal and of the Abort mode pin down how it ends.
 */
module Scenarios {
  import opened Wrappers
  import opened PathMessages
  import opened ActionServer
  import opened ResultTranslation
  import opened ControllerState
  import opened Waits
  import opened Orchestrator

  /** The goal of the scenarios: stamp 5, Abort mode, debug_test 9. */
  const Goal := NavGoal(StampedPose(5, 0), 1.0, FailureAbort, 9)

  /** The planner's answer to the goal. */
  const Planned := Path(5, [3, 4, 5])

  /** A freshly constructed controller that has just accepted a goal. */
  const Accepted := Initial(DefaultUnexpectedPathVelocity).(active := true)

  /** The plan wait takes the path with the awaited stamp, drops an older one, and leaves the rest. */
  method PathWithStampTaken() returns (r: Outcome<()>)
    ensures r.Returned? && r.c.requestedPath == Some(Planned) && r.c.token == 0 && r.rest == [ClockExpires]
  {
    var s := [PathArrives(Path(4, [1, 2])), PathArrives(Planned), ClockExpires];
    EndIndexAt(PathWait(5), s, 1);
    r := AwaitPath(Accepted.(token := 5), s);
    assert s[2..] == [ClockExpires];
  }

  /** A cancel whose acknowledgement never comes still ends the goal preempted, on the deadline. */
  method CancelTimesOut() returns (r: Outcome<bool>)
    ensures r.Returned? && !r.value && r.rest == [] && |r.c.trace| > 0 && Last(r.c.trace) == SetPreempted
  {
    var s := [ClockExpires];
    EndIndexAt(DoneWait(false), s, 0);
    r := CancelAndPreempt(Accepted, s);
  }

  /** Path, then the follower's done callback: the Abort mode ends the goal with the follower's result. */
  method AbortRoundTrip() returns (r: Outcome<()>)
    ensures r.Returned? && r.rest == [] && |r.c.trace| > 0
    ensures Last(r.c.trace) == SetSucceeded(NavResult(true, StatusSuccess, 9))
  {
    var s := [PathArrives(Planned), FollowerDone(Succeeded, FollowResult(MotionSuccess, 9))];
    EndIndexAt(PathWait(5), s, 0);
    EndIndexAt(FollowWait(false), s[1..], 0);
    r := RunAbort(Accepted, Goal, s);
    assert s[1..][1..] == [];
  }

  /**
    For any active controller whose done flag is down: the follow goal
    finishes, its done callback never comes, and the deadline aborts the
    goal with STATUS_TIMEOUT.
   */
  method FollowTimesOut(c: Controller) returns (r: Outcome<bool>)
    requires c.active && !c.preemptRequested && DoneHasResult(c) && !c.followDone
    ensures r.Returned? && !r.value && r.rest == [] && |r.c.trace| > 0
    ensures Last(r.c.trace) == SetAborted(TimeoutResult)
  {
    var t := [ClockExpires];
    var s := [FollowerFinishes] + t;
    assert EndIndex(FollowWait(false), s) == 0 && s[0].FollowerFinishes? && After(FollowWait(false), s) == t
      && EndIndex(DoneWait(true), t) == 0 && t[0].ClockExpires? && After(DoneWait(true), t) == [] by {
      assert s[1..] == t && t[1..] == [];
      EndIndexAt(FollowWait(false), s, 0);
      EndIndexAt(DoneWait(true), t, 0);
    }
    r := Follow(c, Goal, Planned, s);
    FollowsScriptTimeout(c, s, r);
  }

  /**
    The previous goal was preempted and its cancel timed out, so its done
    callback is still due. It arrives during the plan wait of the next goal,
    after the done flag was reset, and when the next follow goal finishes
    the Abort mode ends the new goal with the old goal's collision result.
   */
  method LateDoneCallbackCounts() returns (r: Outcome<()>)
    ensures r.Returned? && r.rest == [] && |r.c.trace| > 0
    ensures Last(r.c.trace) == SetAborted(NavResult(false, StatusCollision, 7))
  {
    var c := Accepted.(follow := Tracking(Supervised, true, false));
    var s := [FollowerDone(Preempted, FollowResult(MotionCollision, 7)), PathArrives(Planned), FollowerFinishes];
    EndIndexAt(PathWait(5), s, 1);
    EndIndexAt(FollowWait(false), s[2..], 0);
    r := RunAbort(c, Goal, s);
    assert s[2..][1..] == [];
  }

  /**
    A cancel interrupts the plan wait while a usable path of an earlier goal
    is still stored: the checks read that path and end the new goal preempted.
   */
  method CancelDuringPlanWait() returns (r: Outcome<bool>)
    ensures r.Returned? && !r.value && r.rest == [] && |r.c.trace| > 0 && Last(r.c.trace) == SetPreempted
  {
    var s := [CancelRequested];
    EndIndexAt(PathWait(5), s, 0);
    r := ProcessGoal(Accepted.(requestedPath := Some(Planned)), Goal, s);
    assert PathChecked(Accepted.(requestedPath := Some(Planned)), s, 0, r);
    assert s[1..] == [];
  }

  /** A shutdown interrupts the plan wait of a controller that never stored a path: the check crashes. */
  method ShutdownWithoutPath() returns (r: Outcome<bool>)
    ensures r.Crashed? && r.fault == NullRequestedPath
  {
    var s := [Shutdown];
    EndIndexAt(PathWait(5), s, 0);
    r := ProcessGoal(Accepted, Goal, s);
  }

  /** The awaited path arrives with a single pose: the goal is aborted with STATUS_NO_PATH_FOUND. */
  method ShortPathAborted() returns (r: Outcome<bool>)
    ensures r.Returned? && !r.value && r.rest == [ClockExpires] && |r.c.trace| > 0
    ensures Last(r.c.trace) == SetAborted(NoPathResult)
  {
    var s := [PathArrives(Path(5, [3])), ClockExpires];
    EndIndexAt(PathWait(5), s, 0);
    r := ProcessGoal(Accepted, Goal, s);
    assert s[1..] == [ClockExpires];
  }

  /** The goal of the scenarios in Replan mode. */
  const ReplanGoal := Goal.(failureMode := FailureReplan)

  /**
    For any active controller with ROS up and no preempt or new goal
    pending: a round whose follow run ends in a collision is replanned, and
    STATUS_REPLAN comes right after it.
   */
  method CollisionReplanned(c: Controller) returns (r: Outcome<bool>)
    requires c.active && c.rosOk && !c.preemptRequested && !c.newGoalAvailable
    ensures r.Returned? && r.value && r.rest == [] && |r.c.trace| > 0
    ensures Last(r.c.trace) == PublishFeedback(ReplanFeedback)
    ensures r.c.calls == Plus(c.calls, NoActions.(plans := 1, follows := 1, replans := 1))
  {
    var s := [PathArrives(Planned), FollowerDone(Succeeded, FollowResult(MotionCollision, 9))];
    EndIndexAt(PathWait(5), s, 0);
    EndIndexAt(FollowWait(false), s[1..], 0);
    r := ReplanRound(c, ReplanGoal, s);
    assert s[1..][1..] == [];
  }

  /**
    For any idle controller following an unexpected path, with ROS up and
    nothing pending, when a goal arrives: navToGoal cancels the unexpected
    run, its done callback comes during the plan wait and only ends that
    run, and the new goal then succeeds with its own result.
   */
  method UnexpectedRunCancelled(c: Controller) returns (r: Outcome<()>, ghost rounds: seq<Outcome<bool>>)
    requires c.active && c.rosOk && !c.preemptRequested && !c.newGoalAvailable
    requires c.unexpectedPath && c.follow == Tracking(Unexpected, false, false)
    ensures r.Returned? && r.rest == [] && c.trace + [CancelFollowGoal] <= r.c.trace
    ensures Last(r.c.trace) == SetSucceeded(NavResult(true, StatusSuccess, 9))
  {
    var s := UnexpectedScript();
    ghost var rests, statuses;
    r, rounds, rests, statuses := NavToGoal(c, Goal, s);
    UnexpectedRunHandled(CancelUnexpected(c), Goal.goalPose.stamp, r);
  }

  /** The events of that goal: the unexpected run's done callback, the path, the finish, the done callback. */
  function UnexpectedScript(): seq<Event> {
    [FollowerDone(Preempted, FollowResult(MotionCollision, 3)), PathArrives(Planned), FollowerFinishes,
     FollowerDone(Succeeded, FollowResult(MotionSuccess, 9))]
  }

  /** The Abort mode on those events, from the controller after the cancel, ends the goal with SUCCESS. */
  lemma UnexpectedRunHandled(c: Controller, stamp: Stamp, r: Outcome<()>)
    requires stamp == 5 && c.follow == Tracking(Unexpected, false, false) && WaitingForPath(c.(token := stamp))
    requires AbortScript(c, stamp, UnexpectedScript(), r)
    ensures r.Returned? && r.rest == [] && |r.c.trace| > 0
    ensures Last(r.c.trace) == SetSucceeded(NavResult(true, StatusSuccess, 9))
  {
    var s := UnexpectedScript();
    var t := s[3..];
    EndIndexAt(PathWait(5), s, 1);
    assert s[2..] == [FollowerFinishes] + t && s[2..][1..] == t;
    EndIndexAt(FollowWait(false), s[2..], 0);
    EndIndexAt(DoneWait(true), t, 0);
    assert !LateDone(c, s, 1);
    assert PathHandled(c, s, 1, r);
    assert t[1..] == [];
  }

  /** The events of a Replan-mode round: the planner answers and the follower reports `status`. */
  function RoundEvents(status: MotionStatus): seq<Event> {
    [PathArrives(Planned), FollowerDone(Succeeded, FollowResult(status, 9))]
  }

  /**
    A round of the Replan-mode goal from a controller with ROS up and
    nothing pending, on events that start with `RoundEvents(status)`: it
    completes with that result, leaves the rest to the next round, and
    leaves ROS up and nothing pending.
   */
  lemma RoundCompletes(c: Controller, status: MotionStatus, rest: seq<Event>, r: Outcome<bool>)
    requires c.active && c.rosOk && !c.preemptRequested && !c.newGoalAvailable
    requires RoundScript(ReplanGoal)(c, RoundEvents(status) + rest, r)
    ensures r.Returned? && r.value && r.rest == rest && r.c.followResult == Some(FollowResult(status, 9))
    ensures r.c.finalState == Some(Succeeded)
    ensures r.c.active && r.c.rosOk && !r.c.preemptRequested && !r.c.newGoalAvailable
  {
    var s := RoundEvents(status) + rest;
    EndIndexAt(PathWait(5), s, 0);
    assert s[1..] == [s[1]] + rest && s[1..][1..] == rest;
    EndIndexAt(FollowWait(false), s[1..], 0);
    assert s[..|s| - |rest|] == RoundEvents(status);
    DeliverFlags(c.(token := 5), RoundEvents(status));
  }

  /** The events of the goal replanned twice. */
  function TwiceScript(): seq<Event> {
    RoundEvents(MotionCollision) + (RoundEvents(MotionCollision) + RoundEvents(MotionSuccess))
  }

  /**
    For any active controller with ROS up and nothing pending: a Replan-mode
    goal whose first two runs end in a collision has each of them replanned,
    the plan wait of every next round runs, and the third run's SUCCESS
    result ends the goal, after two STATUS_REPLAN feedbacks.
   */
  method ReplannedTwice(c: Controller) returns (r: Outcome<()>, ghost rounds: seq<Outcome<bool>>)
    requires c.active && c.rosOk && !c.preemptRequested && !c.newGoalAvailable
    ensures r.Returned? && r.rest == [] && |r.c.trace| > 0
    ensures Last(r.c.trace) == SetSucceeded(NavResult(true, StatusSuccess, 9))
    ensures |rounds| == 3
  {
    ghost var statuses, rests;
    r, statuses, rounds, rests := ReplanLoop(c, ReplanGoal, TwiceScript());
    TwiceRounds(c, rounds, rests, statuses, r);
  }

  /** The rounds of that goal: two replanned collisions, then the SUCCESS round that ends it. */
  lemma TwiceRounds(c: Controller, rounds: seq<Outcome<bool>>, rests: seq<seq<Event>>, statuses: seq<MotionStatus>, r: Outcome<()>)
    requires c.active && c.rosOk && !c.preemptRequested && !c.newGoalAvailable
    requires ReplanRounds(c, ReplanGoal, TwiceScript(), rounds, rests, statuses, r)
    ensures |rounds| == 3 && statuses == [MotionCollision, MotionCollision, MotionSuccess]
    ensures r.Returned? && r.rest == [] && |r.c.trace| > 0
    ensures Last(r.c.trace) == SetSucceeded(NavResult(true, StatusSuccess, 9))
  {
    TwiceFirstRounds(c, rounds, rests);
    TwiceLastRound(rounds[1].c, rests[2], rounds[2]);
    assert |rounds| == 3;
    TwiceStatuses(rounds, statuses);
    SucceededEnding(rounds[2], r);
  }

  /** A last round that returned true with the SUCCESS result ends the goal succeeded with it. */
  lemma SucceededEnding(l: Outcome<bool>, r: Outcome<()>)
    requires l.Returned? && l.value && l.rest == [] && l.c.finalState == Some(Succeeded)
    requires l.c.followResult == Some(FollowResult(MotionSuccess, 9)) && r == HandleFollowPathResult(l.c, l.rest)
    ensures r.Returned? && r.rest == [] && |r.c.trace| > 0
    ensures Last(r.c.trace) == SetSucceeded(NavResult(true, StatusSuccess, 9))
  {
  }

  /** The statuses of its rounds are those of their results. */
  lemma TwiceStatuses(rounds: seq<Outcome<bool>>, statuses: seq<MotionStatus>)
    requires |rounds| == 3 && |statuses| == 3
    requires forall i | 0 <= i < |statuses| ::
      rounds[i].Returned? && rounds[i].c.followResult.Some? && statuses[i] == rounds[i].c.followResult.value.status
    requires rounds[0].c.followResult == rounds[1].c.followResult == Some(FollowResult(MotionCollision, 9))
    requires rounds[2].c.followResult == Some(FollowResult(MotionSuccess, 9))
    ensures statuses == [MotionCollision, MotionCollision, MotionSuccess]
  {
    assert statuses[0] == MotionCollision && statuses[1] == MotionCollision && statuses[2] == MotionSuccess;
  }

  /** The third round completes with SUCCESS, so it is the last. */
  lemma TwiceLastRound(c: Controller, s: seq<Event>, p: Outcome<bool>)
    requires c.active && c.rosOk && !c.preemptRequested && !c.newGoalAvailable
    requires s == RoundEvents(MotionSuccess) && RoundScript(ReplanGoal)(c, s, p)
    ensures p.Returned? && p.value && p.rest == [] && p.c.followResult == Some(FollowResult(MotionSuccess, 9))
    ensures p.c.finalState == Some(Succeeded) && !Replanned(p)
  {
    assert s == RoundEvents(MotionSuccess) + [];
    RoundCompletes(c, MotionSuccess, [], p);
  }

  /** Its first two rounds are replanned, and the third starts on the last round's events. */
  lemma TwiceFirstRounds(c: Controller, rounds: seq<Outcome<bool>>, rests: seq<seq<Event>>)
    requires c.active && c.rosOk && !c.preemptRequested && !c.newGoalAvailable
    requires |rests| > 0 && rests[0] == TwiceScript()
    requires EveryRound(RoundScript(ReplanGoal), c, rounds, rests)
    requires forall i | 0 <= i < |rounds| - 1 :: Replanned(rounds[i]) && rests[i + 1] == rounds[i].rest
    requires |rounds| > 0 && |rests| == |rounds| && !Replanned(rounds[|rounds| - 1])
    ensures |rounds| > 2 && rests[2] == RoundEvents(MotionSuccess)
    ensures rounds[0].c.followResult == rounds[1].c.followResult == Some(FollowResult(MotionCollision, 9))
    ensures var c := rounds[1].c; c.active && c.rosOk && !c.preemptRequested && !c.newGoalAvailable
  {
    var last := RoundEvents(MotionSuccess);
    var second := RoundEvents(MotionCollision) + last;
    assert RoundStart(c, rounds, 0) == c;
    assert RoundScript(ReplanGoal)(c, rests[0], rounds[0]);
    RoundCompletes(c, MotionCollision, second, rounds[0]);
    assert Replanned(rounds[0]) && |rounds| > 1;
    assert RoundScript(ReplanGoal)(RoundStart(c, rounds, 1), rests[1], rounds[1]);
    RoundCompletes(rounds[0].c, MotionCollision, last, rounds[1]);
    assert Replanned(rounds[1]);
  }

  /** The events of the goal cancelled during its done-flag wait. */
  function CancelledScript(): seq<Event> {
    [PathArrives(Planned), FollowerFinishes, CancelRequested, FollowerDone(Succeeded, FollowResult(MotionCollision, 9))]
  }

  /**
    For any active controller with ROS up and nothing pending: a Replan-mode
    goal cancelled while its first run waits for the done flag. The done
    callback still completes that run with a collision, which is replanned;
    the next round's plan wait does not run because of the pending preempt,
    the checks read the path stored before, and the goal ends preempted
    without another follow goal.
   */
  method CancelledBeforeReplan(c: Controller) returns (r: Outcome<()>, ghost rounds: seq<Outcome<bool>>)
    requires c.active && c.rosOk && !c.preemptRequested && !c.newGoalAvailable
    ensures r.Returned? && r.rest == [] && |r.c.trace| > 0 && Last(r.c.trace) == SetPreempted
    ensures |rounds| == 2
  {
    ghost var statuses, rests;
    r, statuses, rounds, rests := ReplanLoop(c, ReplanGoal, CancelledScript());
    CancelledRounds(c, rounds, rests, statuses, r);
  }

  /** The first round of that goal completes with the collision and leaves the preempt pending. */
  lemma CancelledFirstRound(c: Controller, r: Outcome<bool>)
    requires c.active && c.rosOk && !c.preemptRequested && !c.newGoalAvailable
    requires RoundScript(ReplanGoal)(c, CancelledScript(), r)
    ensures Replanned(r) && r.rest == [] && r.c.active && r.c.preemptRequested
    ensures r.c.requestedPath == Some(Planned)
  {
    CancelledRun(c, r);
    CancelledFlags(c, r.c);
  }

  /** The run of that round: the done callback after the cancel completes it with the collision. */
  lemma CancelledRun(c: Controller, r: Outcome<bool>)
    requires c.active && c.rosOk && !c.preemptRequested && !c.newGoalAvailable
    requires ProcessScript(c, 5, CancelledScript(), r)
    ensures Replanned(r) && r.rest == []
  {
    var s := CancelledScript();
    var t := s[2..];
    EndIndexAt(PathWait(5), s, 0);
    assert s[1..] == [FollowerFinishes] + t && s[1..][1..] == t;
    EndIndexAt(FollowWait(false), s[1..], 0);
    EndIndexAt(DoneWait(true), t, 1);
    assert t[2..] == [];
  }

  /** What the events of that round leave: the awaited path stored and the preempt pending. */
  lemma CancelledFlags(c: Controller, c': Controller)
    requires c.active && Consumed(c.(token := 5), CancelledScript(), c', [])
    ensures c'.active && c'.preemptRequested && c'.requestedPath == Some(Planned)
  {
    var s := CancelledScript();
    assert s[..|s| - 0] == s;
    var c5 := c.(token := 5);
    DeliverFlags(c5, s);
    DeliverAppend(c5, [s[0]], s[1..]);
    assert [s[0]] + s[1..] == s && [s[0]][..0] == [];
    CallbackFlags(c5, s[0]);
    DeliverFilled(Callback(c5, s[0]), s[1..]);
  }

  /** Its rounds: the replanned one, then the one that ends the goal preempted. */
  lemma CancelledRounds(c: Controller, rounds: seq<Outcome<bool>>, rests: seq<seq<Event>>, statuses: seq<MotionStatus>, r: Outcome<()>)
    requires c.active && c.rosOk && !c.preemptRequested && !c.newGoalAvailable
    requires ReplanRounds(c, ReplanGoal, CancelledScript(), rounds, rests, statuses, r)
    ensures |rounds| == 2
    ensures r.Returned? && r.rest == [] && |r.c.trace| > 0 && Last(r.c.trace) == SetPreempted
  {
    assert RoundStart(c, rounds, 0) == c;
    CancelledFirstRound(c, rounds[0]);
    assert |rounds| > 1;
    var c1 := rounds[0].c;
    assert RoundScript(ReplanGoal)(c1, [], rounds[1]);
    assert !WaitingForPath(c1.(token := 5));
    assert !Replanned(rounds[1]);
  }
}

/**
  The execute thread of the path controller: navToGoalActionCallback,
  processGoal, handleFollowPathResult and the three waits. Every wait is a
  loop over the script of events that happen while it waits; it stops on the
  event that ends the source's loop, or reports `Blocked` when the script
  runs out first (the thread is still waiting).
 */
module Orchestrator {
  import opened Wrappers
  import opened PathMessages
  import opened ActionServer
  import opened ResultTranslation
  import opened ControllerState
  import opened Waits

  /** A null shared pointer the execute thread dereferences. */
  datatype Fault = NullRequestedPath | NullFollowResult

  datatype Outcome<T> =
    | Returned(c: Controller, rest: seq<Event>, value: T)
    | Blocked(c: Controller)
    | Crashed(c: Controller, fault: Fault)

  /** Passes on an outcome that did not return. */
  function Halted<T, U>(r: Outcome<U>): (h: Outcome<T>)
    requires !r.Returned?
    ensures h.c == r.c && (h.Blocked? <==> r.Blocked?) && (h.Crashed? ==> h.fault == r.fault)
  {
    if r.Blocked? then Blocked(r.c) else Crashed(r.c, r.fault)
  }

  /** The results and feedback the controller builds itself; unset fields keep their defaults. */
  const NoPathResult := NavResult(false, StatusNoPathFound, 0)
  const TimeoutResult := NavResult(false, StatusTimeout, 0)
  const InvalidModeResult := NavResult(false, StatusOtherError, 0)
  const PathReadyFeedback := NavFeedback(FeedbackPathReady, 0)
  const ReplanFeedback := NavFeedback(FeedbackReplan, 0)

  /** The terminal calls processGoal itself can end a goal with. */
  predicate ProcessEnding(e: Effect) {
    e == SetPreempted || e == SetAborted(NoPathResult) || e == SetAborted(TimeoutResult)
  }

  /** The done flag is never raised without a stored result. */
  predicate DoneHasResult(c: Controller) {
    c.followDone ==> c.followResult.Some?
  }

  /** No follow_path done callback runs during the script. */
  predicate NoDoneIn(s: seq<Event>) {
    forall i | 0 <= i < |s| :: !s[i].FollowerDone?
  }

  /**
    A done callback of the follow goal `c` tracks, one that raises the done
    flag, comes among the first `k` events of `s`: a late callback of the goal
    followed before, which the plan wait of the next run delivers.
   */
  predicate LateDone(c: Controller, s: seq<Event>, k: nat)
    requires k <= |s|
  {
    Notifies(c) && FirstDone(s, k) < k
  }

  function Last(t: seq<Effect>): Effect
    requires |t| > 0
  {
    t[|t| - 1]
  }

  /**
    The calls a processGoal run adds, from `before` to `after`, when it ends
    the goal itself: `plans` plan requests, at most one follow goal, a cancel
    only when a running follow goal was preempted, and one terminal call.
   */
  predicate EndedRun(before: Tally, after: Tally, plans: nat, last: Effect) {
    && after.plans == before.plans + plans && after.unexpectedRuns == before.unexpectedRuns
    && after.replans == before.replans && after.terminals == before.terminals + 1
    && before.follows <= after.follows <= before.follows + 1
    && after.cancels == before.cancels + (if after.follows > before.follows && last == SetPreempted then 1 else 0)
  }

  /** What the loop of waitForPath keeps after `i` events of `s`, from `c0` to `c`. */
  predicate PlanWaitLoop(c0: Controller, s: seq<Event>, i: nat, c: Controller) {
    var w := PathWait(c0.token);
    && i <= |s| && c.active
    && (i == 0 ==> c == c0)
    && (!WaitingForPath(c0) ==> i == 0)
    && (WaitingForPath(c) ==> c.token == c0.token && forall j | 0 <= j < i :: !Ends(w, s[j]))
    && (WaitingForPath(c0) && !WaitingForPath(c) ==>
          && 0 < i && EndIndex(w, s) == i - 1
          && (c.preemptRequested <==> s[i - 1].CancelRequested? || s[i - 1].NewGoalArrives?)
          && (s[i - 1].PathArrives? ==> c.requestedPath == Some(s[i - 1].path) && c.token == 0)
          && (!s[i - 1].PathArrives? ==> c.requestedPath == c0.requestedPath && c.token == c0.token))
    && (LateDone(c0, s, i) ==>
          && c.followDone && c.followResult == Some(s[FirstDone(s, i)].result)
          && c.finalState == Some(s[FirstDone(s, i)].state) && !Notifies(c))
    && (!LateDone(c0, s, i) ==>
          && c.followDone == c0.followDone && c.followResult == c0.followResult
          && c.finalState == c0.finalState && Notifies(c) == Notifies(c0))
    && c0.trace <= c.trace && c.calls == c0.calls
    && (c.token == c0.token || c.token == 0)
    && (c.token != 0 ==> c.requestedPath == c0.requestedPath)
    && (c.requestedPath != c0.requestedPath ==>
          c0.token != 0 && c.requestedPath.Some? && c.requestedPath.value.stamp == c0.token)
    && (c0.preemptRequested ==> c.preemptRequested)
    && (DoneHasResult(c0) ==> DoneHasResult(c))
    && (NoDoneIn(s) && !c0.followDone ==> !c.followDone)
  }

  /** One more event of the plan wait keeps what the loop keeps. */
  lemma PlanWaitLoopStep(c0: Controller, s: seq<Event>, i: nat, c: Controller)
    requires PlanWaitLoop(c0, s, i, c) && i < |s| && WaitingForPath(c)
    ensures PlanWaitLoop(c0, s, i + 1, Callback(c, s[i]))
  {
    PathWaitStep(c, s[i]);
    DoneStep(c, s[i]);
    FirstDoneStep(s, i);
    if !WaitingForPath(Callback(c, s[i])) {
      EndIndexAt(PathWait(c0.token), s, i);
    }
  }

  /** Where the loop of waitForPath stops, what it kept gives the outcome of the wait. */
  lemma PlanWaitLoopExit(c0: Controller, s: seq<Event>, i: nat, c: Controller, r: Outcome<()>)
    requires PlanWaitLoop(c0, s, i, c) && (i == |s| || !WaitingForPath(c))
    requires r == if WaitingForPath(c) then Blocked(c) else Returned(c, s[i..], ())
    ensures !r.Crashed? && r.c.active
    ensures c0.trace <= r.c.trace && r.c.calls == c0.calls
    ensures r.Returned? ==> !WaitingForPath(r.c) && |r.rest| <= |s| && (NoDoneIn(s) ==> NoDoneIn(r.rest))
    ensures r.Blocked? ==> WaitingForPath(r.c)
    ensures !WaitingForPath(c0) ==> r == Returned(c0, s, ())
    ensures r.c.token == c0.token || r.c.token == 0
    ensures r.c.token != 0 ==> r.c.requestedPath == c0.requestedPath
    ensures r.c.requestedPath != c0.requestedPath ==>
      c0.token != 0 && r.c.requestedPath.Some? && r.c.requestedPath.value.stamp == c0.token
    ensures c0.preemptRequested ==> r.c.preemptRequested
    ensures DoneHasResult(c0) ==> DoneHasResult(r.c)
    ensures NoDoneIn(s) && !c0.followDone ==> !r.c.followDone
  {
    assert i == 0 ==> s[i..] == s;
    if r.Returned? && NoDoneIn(s) {
      assert forall j | 0 <= j < |r.rest| :: r.rest[j] == s[i + j];
    }
  }

  /** Where a running plan wait stops, it stopped on the first event that ends it, or the script ran out. */
  lemma PlanWaitLoopEnds(c0: Controller, s: seq<Event>, i: nat, c: Controller, r: Outcome<()>)
    requires WaitingForPath(c0)
    requires PlanWaitLoop(c0, s, i, c) && (i == |s| || !WaitingForPath(c))
    requires r == if WaitingForPath(c) then Blocked(c) else Returned(c, s[i..], ())
    ensures r.Blocked? <==> EndIndex(PathWait(c0.token), s) == |s|
    ensures r.Returned? ==> r.rest == After(PathWait(c0.token), s)
  {
    var w := PathWait(c0.token);
    if WaitingForPath(c) {
      NoEndAt(w, s);
    } else {
      assert EndIndex(w, s) == i - 1;
    }
  }

  /**
    A running plan wait that stops on the awaited path has stored it; one
    that stops on any other event has kept the old path and the token. Only
    a cancel or a new goal leaves a preempt pending.
   */
  lemma PlanWaitLoopPath(c0: Controller, s: seq<Event>, i: nat, c: Controller)
    requires WaitingForPath(c0)
    requires PlanWaitLoop(c0, s, i, c) && (i == |s| || !WaitingForPath(c))
    ensures EndIndex(PathWait(c0.token), s) < |s| ==>
      var e := s[EndIndex(PathWait(c0.token), s)];
      && (c.preemptRequested <==> e.CancelRequested? || e.NewGoalArrives?)
      && (e.PathArrives? ==> c.requestedPath == Some(e.path) && c.token == 0)
      && (!e.PathArrives? ==> c.requestedPath == c0.requestedPath && c.token == c0.token)
  {
    if WaitingForPath(c) {
      NoEndAt(PathWait(c0.token), s);
    }
  }

  /**
    A plan wait that stopped keeps the first done callback delivered before
    its end, for a goal that notifies; without one it leaves the done flag,
    the stored result and the final state as they were.
   */
  lemma PlanWaitLoopDone(c0: Controller, s: seq<Event>, i: nat, c: Controller)
    requires WaitingForPath(c0)
    requires PlanWaitLoop(c0, s, i, c) && !WaitingForPath(c)
    ensures var k := EndIndex(PathWait(c0.token), s);
      && k < |s|
      && (LateDone(c0, s, k) ==>
            && c.followDone && c.followResult == Some(s[FirstDone(s, k)].result)
            && c.finalState == Some(s[FirstDone(s, k)].state))
      && (!LateDone(c0, s, k) ==>
            c.followDone == c0.followDone && c.followResult == c0.followResult && c.finalState == c0.finalState)
  {
    assert EndIndex(PathWait(c0.token), s) == i - 1;
    FirstDoneStep(s, i - 1);
  }

  /** The loop of waitForPath. */
  method AwaitPath(c0: Controller, s: seq<Event>) returns (r: Outcome<()>)
    requires c0.active
    ensures !r.Crashed? && r.c.active
    ensures c0.trace <= r.c.trace && r.c.calls == c0.calls
    ensures r.Returned? ==> !WaitingForPath(r.c) && |r.rest| <= |s| && (NoDoneIn(s) ==> NoDoneIn(r.rest))
    ensures r.Blocked? ==> WaitingForPath(r.c)
    ensures !WaitingForPath(c0) ==> r == Returned(c0, s, ())
    // a running wait ends on its first ending event, and only there
    ensures WaitingForPath(c0) ==> (r.Blocked? <==> EndIndex(PathWait(c0.token), s) == |s|)
    ensures WaitingForPath(c0) && r.Returned? ==> r.rest == After(PathWait(c0.token), s)
    // the event that ends a running wait decides the stored path and the preempt flag: the
    // awaited path is stored; a cancel, new goal or shutdown leaves the old path and the token
    ensures WaitingForPath(c0) && EndIndex(PathWait(c0.token), s) < |s| ==>
      var e := s[EndIndex(PathWait(c0.token), s)];
      && (r.c.preemptRequested <==> e.CancelRequested? || e.NewGoalArrives?)
      && (e.PathArrives? ==> r.c.requestedPath == Some(e.path) && r.c.token == 0)
      && (!e.PathArrives? ==> r.c.requestedPath == c0.requestedPath && r.c.token == c0.token)
    // the first done callback before the end of a running wait, for a goal that notifies, raises
    // the done flag with its result; without one the flag, result and final state stay as they were
    ensures WaitingForPath(c0) && r.Returned? ==>
      var k := EndIndex(PathWait(c0.token), s);
      && k < |s|
      && (LateDone(c0, s, k) ==>
            && r.c.followDone && r.c.followResult == Some(s[FirstDone(s, k)].result)
            && r.c.finalState == Some(s[FirstDone(s, k)].state))
      && (!LateDone(c0, s, k) ==>
            r.c.followDone == c0.followDone && r.c.followResult == c0.followResult && r.c.finalState == c0.finalState)
    // a path is taken only if it carries the awaited stamp; otherwise the old one stays
    ensures r.c.token == c0.token || r.c.token == 0
    ensures r.c.token != 0 ==> r.c.requestedPath == c0.requestedPath
    ensures r.c.requestedPath != c0.requestedPath ==>
      c0.token != 0 && r.c.requestedPath.Some? && r.c.requestedPath.value.stamp == c0.token
    ensures c0.preemptRequested ==> r.c.preemptRequested
    ensures DoneHasResult(c0) ==> DoneHasResult(r.c)
    ensures NoDoneIn(s) && !c0.followDone ==> !r.c.followDone
    // the wait consumed the events before the rest it returns, and nothing else moved the flags
    ensures r.Returned? ==> Consumed(c0, s, r.c, r.rest)
  {
    var c := c0;
    var i := 0;
    DeliveredNothing(c0, s);
    while i < |s| && WaitingForPath(c)
      invariant PlanWaitLoop(c0, s, i, c)
      invariant Delivered(c0, s, i, c)
      decreases |s| - i
    {
      PlanWaitLoopStep(c0, s, i, c);
      DeliveredStep(c0, s, i, c);
      c, i := Callback(c, s[i]), i + 1;
    }
    if WaitingForPath(c) {
      r := Blocked(c);
    } else {
      r := Returned(c, s[i..], ());
      ConsumedPrefix(c0, s, i, c);
    }
    PlanWaitLoopExit(c0, s, i, c, r);
    if WaitingForPath(c0) {
      PlanWaitLoopEnds(c0, s, i, c, r);
      PlanWaitLoopPath(c0, s, i, c);
      if !WaitingForPath(c) {
        PlanWaitLoopDone(c0, s, i, c);
      }
    }
  }

  /**
    The plan wait for `stamp` on the events `s`, from `c`: a wait whose
    condition already fails returns at once. A running wait blocks exactly
    when no event ends it, and otherwise returns the events after the first
    one that does. When that event is the awaited path, the path is stored;
    when it is a cancel, a new goal or a shutdown, the old path and the
    token stay. A preempt is pending exactly after a cancel or a new goal.
    The first done callback before the end, for a goal that notifies, raises
    the done flag with its result; without one the done flag, the stored
    result and the final state stay as they were.
   */
  predicate PlanWaitScript(c: Controller, stamp: Stamp, s: seq<Event>, w: Outcome<()>) {
    var k := EndIndex(PathWait(stamp), s);
    && !w.Crashed?
    && (!WaitingForPath(c.(token := stamp)) ==> w.Returned? && w.rest == s)
    && (WaitingForPath(c.(token := stamp)) ==>
          && (w.Blocked? <==> k == |s|)
          && (k < |s| ==> w.Returned? && w.rest == s[k + 1..])
          && (k < |s| ==> (w.c.preemptRequested <==> s[k].CancelRequested? || s[k].NewGoalArrives?))
          && (k < |s| && s[k].PathArrives? ==> w.c.requestedPath == Some(s[k].path))
          && (k < |s| && !s[k].PathArrives? ==> w.c.requestedPath == c.requestedPath && w.c.token == stamp)
          && (k < |s| && LateDone(c, s, k) ==>
                && w.c.followDone && w.c.followResult == Some(s[FirstDone(s, k)].result)
                && w.c.finalState == Some(s[FirstDone(s, k)].state))
          && (k < |s| && !LateDone(c, s, k) ==>
                && w.c.followDone == c.followDone && w.c.followResult == c.followResult
                && w.c.finalState == c.finalState))
  }

  /** waitForPath: stamp the request, publish the goal pose, then wait. */
  method WaitForPath(c: Controller, goalPose: StampedPose, s: seq<Event>) returns (r: Outcome<()>)
    requires c.active
    ensures !r.Crashed? && r.c.active
    ensures c.trace + [PublishGoalPose(goalPose)] <= r.c.trace
    ensures r.c.calls == Plus(c.calls, NoActions.(plans := 1))
    ensures r.Returned? ==> !WaitingForPath(r.c) && |r.rest| <= |s| && (NoDoneIn(s) ==> NoDoneIn(r.rest))
    // a request that is not outstanding, or already interrupted, is not waited for
    ensures !WaitingForPath(c.(token := goalPose.stamp)) ==>
      r == Returned(Emit(c.(token := goalPose.stamp), PublishGoalPose(goalPose)), s, ())
    // otherwise the wait ends on the first ending event for this stamp, and only there
    ensures PlanWaitScript(c, goalPose.stamp, s, r)
    ensures r.c.token != 0 ==> r.c.token == goalPose.stamp && r.c.requestedPath == c.requestedPath
    ensures r.c.requestedPath != c.requestedPath ==>
      goalPose.stamp != 0 && r.c.requestedPath.Some? && r.c.requestedPath.value.stamp == goalPose.stamp
    ensures c.preemptRequested ==> r.c.preemptRequested
    ensures DoneHasResult(c) ==> DoneHasResult(r.c)
    ensures NoDoneIn(s) && !c.followDone ==> !r.c.followDone
    ensures r.Returned? ==> Consumed(c.(token := goalPose.stamp), s, r.c, r.rest)
  {
    r := AwaitPath(Emit(c.(token := goalPose.stamp), PublishGoalPose(goalPose)), s);
    if r.Returned? {
      ConsumedFrom(c.(token := goalPose.stamp), Emit(c.(token := goalPose.stamp), PublishGoalPose(goalPose)), s, r.c, r.rest);
    }
  }

  /**
    The done-flag wait on the events `s`, from `c0`: a flag already raised
    passes at once. Otherwise the wait blocks exactly when neither a deadline
    nor a done callback that raises the flag comes, and otherwise ends on
    the first of them and returns whether it was the callback, whose result
    and final state are then stored.
   */
  predicate DoneWaitScript(c0: Controller, s: seq<Event>, r: Outcome<bool>) {
    var k := EndIndex(DoneWait(Notifies(c0)), s);
    && (c0.followDone ==> r == Returned(c0, s, true))
    && (!c0.followDone ==> (r.Blocked? <==> k == |s|))
    && (!c0.followDone && k < |s| ==>
          && r.Returned? && r.rest == s[k + 1..] && (r.value <==> s[k].FollowerDone?)
          && (s[k].FollowerDone? ==> r.c.followResult == Some(s[k].result) && r.c.finalState == Some(s[k].state)))
  }

  /** waitForFollowPathDone: wait for the done flag, at most until the deadline passes. */
  method WaitForFollowPathDone(c0: Controller, s: seq<Event>) returns (r: Outcome<bool>)
    requires c0.active
    ensures !r.Crashed? && r.c.active
    ensures c0.trace <= r.c.trace && r.c.calls == c0.calls
    ensures r.Returned? ==> r.value == r.c.followDone && |r.rest| <= |s| && (NoDoneIn(s) ==> NoDoneIn(r.rest))
    ensures DoneWaitScript(c0, s, r)
    ensures (r.c.follow.Tracking? <==> c0.follow.Tracking?)
    ensures c0.follow.Tracking? ==> r.c.follow.kind == c0.follow.kind
    ensures c0.follow.Tracking? && c0.follow.finished ==> r.c.follow.finished
    ensures DoneHasResult(c0) ==> DoneHasResult(r.c)
    ensures NoDoneIn(s) && !c0.followDone ==> !r.c.followDone
    ensures r.Returned? && r.value ==> Consumed(c0, s, r.c, r.rest)
  {
    var c := c0;
    var i := 0;
    ghost var w := DoneWait(Notifies(c0));
    DeliveredNothing(c0, s);
    while i < |s| && !c.followDone && !s[i].ClockExpires?
      invariant i <= |s| && c.active
      invariant i == 0 ==> c == c0
      invariant Delivered(c0, s, i, c)
      invariant c0.followDone ==> i == 0
      invariant !c.followDone ==> Notifies(c) == Notifies(c0) && forall j | 0 <= j < i :: !Ends(w, s[j])
      invariant c.followDone && !c0.followDone ==>
        && 0 < i && EndIndex(w, s) == i - 1 && s[i - 1].FollowerDone?
        && c.followResult == Some(s[i - 1].result) && c.finalState == Some(s[i - 1].state)
      invariant c0.trace <= c.trace && c.calls == c0.calls
      invariant (c.follow.Tracking? <==> c0.follow.Tracking?)
      invariant c0.follow.Tracking? ==> c.follow.kind == c0.follow.kind
      invariant c0.follow.Tracking? && c0.follow.finished ==> c.follow.finished
      invariant DoneHasResult(c0) ==> DoneHasResult(c)
      invariant NoDoneIn(s) && !c0.followDone ==> !c.followDone
    {
      DoneWaitStep(c, s[i]);
      if Callback(c, s[i]).followDone {
        EndIndexAt(w, s, i);
      }
      DeliveredStep(c0, s, i, c);
      c, i := Callback(c, s[i]), i + 1;
    }
    assert i == 0 ==> s[i..] == s;
    if c.followDone {
      r := Returned(c, s[i..], true);
      ConsumedPrefix(c0, s, i, c);
    } else if i < |s| {
      EndIndexAt(w, s, i);
      r := Returned(c, s[i + 1..], false);
    } else {
      r := Blocked(c);
    }
  }

  /** The preempt branch of the follow loop: cancel, wait for the acknowledgement, end the goal. */
  method CancelAndPreempt(c: Controller, s: seq<Event>) returns (r: Outcome<bool>)
    requires c.active
    ensures !r.Crashed?
    ensures c.trace + [CancelFollowGoal] <= r.c.trace
    ensures r.Blocked? ==> r.c.active
    ensures NoDoneIn(s) && !c.followDone ==> !r.c.followDone
    // whether or not the follower acknowledged within the bound, the goal ends preempted
    ensures r.Returned? ==>
      && !r.value && !r.c.active && |r.rest| <= |s| && (NoDoneIn(s) ==> NoDoneIn(r.rest))
      && Last(r.c.trace) == SetPreempted
      && r.c.calls == Plus(c.calls, NoActions.(cancels := 1, terminals := 1))
    // the wait for the acknowledgement ends on the deadline or on the done callback
    ensures c.followDone ==>
      r.Returned? && r.rest == s && r.c.followResult == c.followResult && r.c.finalState == c.finalState
    ensures !c.followDone ==> (r.Blocked? <==> EndIndex(DoneWait(Notifies(c)), s) == |s|)
    ensures !c.followDone && r.Returned? ==> r.rest == After(DoneWait(Notifies(c)), s)
  {
    var w := WaitForFollowPathDone(Emit(c, CancelFollowGoal), s);
    if w.Returned? {
      r := Returned(EndGoal(w.c, SetPreempted), w.rest, false);
    } else {
      r := Halted(w);
    }
  }

  /**
    The isDone loop on the events `s`, from a supervised goal in `c0`: a
    finished goal passes at once and a pending preempt goes straight to the
    cancel. Otherwise the loop blocks when no event ends it, and ends on the
    first finish, done callback, cancel or new goal. A finish or a done
    callback leaves the loop with the goal done: the done callback stores
    its result, a finish changes nothing else. A cancel or new goal leads to
    the cancel's bounded wait for the done callback.
   */
  predicate FollowLoopScript(c0: Controller, s: seq<Event>, r: Outcome<bool>) {
    c0.follow.Tracking? &&
    var k := EndIndex(FollowWait(c0.follow.notified), s);
    var d := DoneWait(!c0.follow.notified);
    && (c0.follow.finished ==> r == Returned(c0, s, true))
    && (!c0.follow.finished && c0.preemptRequested ==>
          && (r.Blocked? <==> !c0.followDone && EndIndex(d, s) == |s|)
          && (r.Returned? ==> !r.value)
          && (r.Returned? && c0.followDone ==>
                r.rest == s && r.c.followResult == c0.followResult && r.c.finalState == c0.finalState)
          && (r.Returned? && !c0.followDone ==> r.rest == After(d, s)))
    && (!c0.follow.finished && !c0.preemptRequested ==>
          && (k == |s| ==> r.Blocked?)
          && (k < |s| && (s[k].FollowerFinishes? || s[k].FollowerDone?) ==>
                r.Returned? && r.value && r.rest == s[k + 1..])
          && (k < |s| && s[k].FollowerDone? ==>
                r.c.followDone && r.c.followResult == Some(s[k].result) && r.c.finalState == Some(s[k].state))
          && (k < |s| && s[k].FollowerFinishes? ==>
                && r.c.followDone == c0.followDone && r.c.followResult == c0.followResult
                && r.c.finalState == c0.finalState
                && r.c.follow.Tracking? && r.c.follow.notified == c0.follow.notified)
          && (k < |s| && (s[k].CancelRequested? || s[k].NewGoalArrives?) ==>
                && (r.Blocked? <==> !c0.followDone && EndIndex(d, s[k + 1..]) == |s[k + 1..]|)
                && (r.Returned? ==> !r.value)
                && (r.Returned? && c0.followDone ==>
                      r.rest == s[k + 1..] && r.c.followResult == c0.followResult && r.c.finalState == c0.finalState)
                && (r.Returned? && !c0.followDone ==> r.rest == After(d, s[k + 1..]))))
  }

  /** The loop of processGoal that runs while the follow goal is not done (getState().isDone()). */
  method AwaitFollower(c0: Controller, s: seq<Event>) returns (r: Outcome<bool>)
    requires c0.active && c0.follow.Tracking? && c0.follow.kind == Supervised
    requires DoneHasResult(c0)
    ensures !r.Crashed?
    ensures c0.trace <= r.c.trace
    ensures r.Returned? ==> |r.rest| <= |s| && (NoDoneIn(s) ==> NoDoneIn(r.rest))
    ensures r.Blocked? ==> r.c.active
    ensures NoDoneIn(s) && !c0.followDone ==> !r.c.followDone
    ensures r.Returned? && r.value ==>
      && r.c.active && r.c.follow.Tracking? && r.c.follow.kind == Supervised && r.c.follow.finished
      && r.c.calls == c0.calls && DoneHasResult(r.c)
      && (!c0.follow.finished ==> |r.rest| < |s|)
    // a preempt costs exactly one cancel and then the terminal setPreempted
    ensures r.Returned? && !r.value ==>
      && |r.c.trace| > 0 && !r.c.active && Last(r.c.trace) == SetPreempted
      && r.c.calls == Plus(c0.calls, NoActions.(cancels := 1, terminals := 1))
    ensures FollowLoopScript(c0, s, r)
    ensures r.Returned? && r.value ==> Consumed(c0, s, r.c, r.rest)
  {
    var c, i := RunIsDoneLoop(c0, s);
    assert i == 0 ==> s[i..] == s;
    if c.follow.finished {
      r := Returned(c, s[i..], true);
      ConsumedPrefix(c0, s, i, c);
    } else if c.preemptRequested {
      r := CancelAndPreempt(c, s[i..]);
    } else {
      r := Blocked(c);
    }
  }

  /**
    What the isDone loop keeps after `i` events of `s`, from `c0` to `c`:
    the events it delivered, and, once it stops on a finish, a done callback,
    a cancel or a new goal, that this was the first event to end it.
   */
  predicate IsDoneLoop(c0: Controller, s: seq<Event>, i: nat, c: Controller) {
    c0.follow.Tracking? &&
    var w := FollowWait(c0.follow.notified);
    && i <= |s| && c.active && Delivered(c0, s, i, c)
    && c.follow.Tracking? && c.follow.kind == Supervised && DoneHasResult(c)
    && (i == 0 ==> c == c0)
    && (c0.follow.finished || c0.preemptRequested ==> i == 0)
    && c0.trace <= c.trace && c.calls == c0.calls
    && (NoDoneIn(s) && !c0.followDone ==> !c.followDone)
    && (!c0.follow.finished ==> !(c.follow.finished && c.preemptRequested))
    && (!c.follow.finished ==> c.follow.notified == c0.follow.notified)
    && (!c.follow.finished ==>
          c.followDone == c0.followDone && c.followResult == c0.followResult && c.finalState == c0.finalState)
    && (!c.follow.finished && !c.preemptRequested ==> forall j | 0 <= j < i :: !Ends(w, s[j]))
    && (!c0.preemptRequested && (c.follow.finished || c.preemptRequested) && !c0.follow.finished ==>
          0 < i && EndIndex(w, s) == i - 1)
    && (c.follow.finished && !c0.follow.finished ==> s[i - 1].FollowerFinishes? || s[i - 1].FollowerDone?)
    && (c.preemptRequested && !c0.preemptRequested ==> s[i - 1].CancelRequested? || s[i - 1].NewGoalArrives?)
    && (c.follow.finished && !c0.follow.finished && s[i - 1].FollowerDone? ==>
          c.followDone && c.followResult == Some(s[i - 1].result) && c.finalState == Some(s[i - 1].state))
    && (c.follow.finished && !c0.follow.finished && !s[i - 1].FollowerDone? ==>
          && c.followDone == c0.followDone && c.followResult == c0.followResult
          && c.finalState == c0.finalState && c.follow.notified == c0.follow.notified)
  }

  /** The isDone loop itself: deliver events until the goal is done, a preempt is pending or the script ends. */
  method RunIsDoneLoop(c0: Controller, s: seq<Event>) returns (c: Controller, i: nat)
    requires c0.active && c0.follow.Tracking? && c0.follow.kind == Supervised
    requires DoneHasResult(c0)
    ensures IsDoneLoop(c0, s, i, c)
    ensures c.follow.finished || c.preemptRequested || i == |s|
  {
    c, i := c0, 0;
    ghost var w := FollowWait(c0.follow.notified);
    DeliveredNothing(c0, s);
    while !c.follow.finished && !c.preemptRequested && i < |s|
      invariant IsDoneLoop(c0, s, i, c)
      decreases |s| - i
    {
      FollowWaitStep(c, s[i]);
      if Callback(c, s[i]).follow.finished || Callback(c, s[i]).preemptRequested {
        EndIndexAt(w, s, i);
      }
      DeliveredStep(c0, s, i, c);
      c, i := Callback(c, s[i]), i + 1;
    }
  }

  /** The follow goal processGoal dispatches for a goal and a path. */
  function FollowGoalFor(goal: NavGoal, p: Path): FollowGoal {
    FollowGoal(goal.debugTest, p, goal.velocity)
  }

  /**
    What the follow part of processGoal makes of the events that arrive once
    the follow goal is sent, starting from the done flag, stored result and
    final state of `c`. The isDone loop ends on the first finish, done
    callback, cancel or new goal. A done callback completes the run with its
    result. A finish leads to the bounded wait for the done flag, which a
    flag already raised passes at once, and whose deadline aborts the goal
    with STATUS_TIMEOUT. A cancel or new goal leads to the cancel, its
    bounded wait and setPreempted.
   */
  predicate FollowsScript(c: Controller, s: seq<Event>, r: Outcome<bool>) {
    var k := EndIndex(FollowWait(false), s);
    && (k == |s| ==> r.Blocked?)
    && (k < |s| && s[k].FollowerDone? ==>
          && r.Returned? && r.value && r.rest == s[k + 1..]
          && r.c.followResult == Some(s[k].result) && r.c.finalState == Some(s[k].state))
    && (k < |s| && s[k].FollowerFinishes? && c.followDone ==>
          && r.Returned? && r.value && r.rest == s[k + 1..]
          && r.c.followResult == c.followResult && r.c.finalState == c.finalState)
    && (k < |s| && s[k].FollowerFinishes? && !c.followDone ==>
          var t := s[k + 1..];
          var j := EndIndex(DoneWait(true), t);
          && (r.Blocked? <==> j == |t|)
          && (j < |t| ==> r.Returned? && r.rest == t[j + 1..] && (r.value <==> t[j].FollowerDone?))
          && (j < |t| && t[j].FollowerDone? ==>
                r.c.followResult == Some(t[j].result) && r.c.finalState == Some(t[j].state))
          && (j < |t| && t[j].ClockExpires? ==>
                |r.c.trace| > 0 && Last(r.c.trace) == SetAborted(TimeoutResult)))
    && (k < |s| && (s[k].CancelRequested? || s[k].NewGoalArrives?) ==>
          var t := s[k + 1..];
          var j := EndIndex(DoneWait(true), t);
          && (r.Blocked? <==> !c.followDone && j == |t|)
          && (r.Returned? ==> !r.value && |r.c.trace| > 0 && Last(r.c.trace) == SetPreempted)
          && (r.Returned? && c.followDone ==>
                r.rest == t && r.c.followResult == c.followResult && r.c.finalState == c.finalState)
          && (r.Returned? && !c.followDone ==> j < |t| && r.rest == t[j + 1..]))
  }

  /** Only the done flag, the stored result and the final state of the starting controller matter. */
  lemma FollowsScriptFrame(c: Controller, c': Controller, s: seq<Event>, r: Outcome<bool>)
    requires FollowsScript(c, s, r)
    requires c'.followDone == c.followDone && c'.followResult == c.followResult && c'.finalState == c.finalState
    ensures FollowsScript(c', s, r)
  {
  }

  /**
    The follow goal finishes before its done callback, and a deadline passes
    before any done callback: the run is aborted with STATUS_TIMEOUT.
   */
  lemma FollowsScriptTimeout(c: Controller, s: seq<Event>, r: Outcome<bool>)
    requires FollowsScript(c, s, r) && !c.followDone
    requires EndIndex(FollowWait(false), s) < |s| && s[EndIndex(FollowWait(false), s)].FollowerFinishes?
    requires var t := After(FollowWait(false), s);
      EndIndex(DoneWait(true), t) < |t| && t[EndIndex(DoneWait(true), t)].ClockExpires?
    ensures r.Returned? && !r.value && r.rest == After(DoneWait(true), After(FollowWait(false), s))
    ensures |r.c.trace| > 0 && Last(r.c.trace) == SetAborted(TimeoutResult)
  {
  }

  /** A deadline after the end of the isDone loop keeps the follow part from blocking. */
  lemma FollowsScriptExpiry(c: Controller, s: seq<Event>, r: Outcome<bool>)
    requires FollowsScript(c, s, r) && ExpiresAfterEnd(FollowWait(false), s)
    ensures !r.Blocked?
  {
    ExpiryEndsDoneWait(FollowWait(false), s, true);
  }

  /**
    The follow part is the isDone loop of the goal just sent, followed, when
    the loop leaves with the goal done, by the done-flag wait and the
    STATUS_TIMEOUT abort on its deadline.
   */
  lemma FollowComposes(c: Controller, s: seq<Event>, f: Outcome<bool>, d: Outcome<bool>, r: Outcome<bool>)
    requires c.follow == Tracking(Supervised, false, false) && !c.preemptRequested
    requires FollowLoopScript(c, s, f)
    requires !f.Returned? || !f.value ==> r == f
    requires f.Returned? && !f.value ==> |f.c.trace| > 0 && Last(f.c.trace) == SetPreempted
    requires f.Returned? && f.value ==>
      && f.c.follow.Tracking? && f.c.follow.kind == Supervised
      && DoneWaitScript(f.c, f.rest, d) && !d.Crashed?
      && (d.Blocked? ==> r.Blocked?)
      && (d.Returned? ==> r.Returned? && r.rest == d.rest && r.value == d.value)
      && (d.Returned? && d.value ==> r.c.followResult == d.c.followResult && r.c.finalState == d.c.finalState)
      && (d.Returned? && !d.value ==> |r.c.trace| > 0 && Last(r.c.trace) == SetAborted(TimeoutResult))
    ensures FollowsScript(c, s, r)
  {
  }

  /**
    processGoal from the PATH_READY feedback on: send the follow goal, wait
    until it is done, then wait for the done flag.
   */
  method Follow(c: Controller, goal: NavGoal, p: Path, s: seq<Event>) returns (r: Outcome<bool>)
    requires c.active && !c.preemptRequested && DoneHasResult(c)
    ensures !r.Crashed?
    ensures c.trace + [PublishFeedback(PathReadyFeedback), SendFollowGoal(FollowGoalFor(goal, p), Supervised)] <= r.c.trace
    ensures r.Returned? ==> (r.value <==> r.c.active) && |r.rest| <= |s| && (NoDoneIn(s) ==> NoDoneIn(r.rest))
    ensures r.Returned? && r.value ==>
      && |r.rest| < |s| && r.c.followDone && r.c.followResult.Some?
      && r.c.calls == Plus(c.calls, NoActions.(follows := 1))
    ensures NoDoneIn(s) && !c.followDone ==> !(r.Returned? && r.value)
    // the run ends preempted after one cancel, or aborted with STATUS_TIMEOUT and no cancel
    ensures r.Returned? && !r.value ==>
      || (Last(r.c.trace) == SetPreempted
          && r.c.calls == Plus(c.calls, NoActions.(follows := 1, cancels := 1, terminals := 1)))
      || (Last(r.c.trace) == SetAborted(TimeoutResult)
          && r.c.calls == Plus(c.calls, NoActions.(follows := 1, terminals := 1)))
    ensures FollowsScript(c, s, r)
    ensures ExpiresAfterEnd(FollowWait(false), s) ==> !r.Blocked?
    ensures r.Returned? && r.value ==> Consumed(c, s, r.c, r.rest)
  {
    var c1 := Emit(Emit(c, PublishFeedback(PathReadyFeedback)), SendFollowGoal(FollowGoalFor(goal, p), Supervised));
    r := Supervise(c1.(follow := Tracking(Supervised, false, false)), s);
    FollowsScriptFrame(c1.(follow := Tracking(Supervised, false, false)), c, s, r);
    if r.Returned? && r.value {
      ConsumedFrom(c, c1.(follow := Tracking(Supervised, false, false)), s, r.c, r.rest);
    }
    assert c1.trace == c.trace + [PublishFeedback(PathReadyFeedback), SendFollowGoal(FollowGoalFor(goal, p), Supervised)];
    assert c1.calls == Plus(c.calls, NoActions.(follows := 1));
  }

  /** The follow part once the supervised goal is sent: the isDone loop, then the done-flag wait. */
  method Supervise(c: Controller, s: seq<Event>) returns (r: Outcome<bool>)
    requires c.active && !c.preemptRequested && DoneHasResult(c) && c.follow == Tracking(Supervised, false, false)
    ensures !r.Crashed?
    ensures c.trace <= r.c.trace
    ensures r.Returned? ==> (r.value <==> r.c.active) && |r.rest| <= |s| && (NoDoneIn(s) ==> NoDoneIn(r.rest))
    ensures r.Returned? && r.value ==>
      && |r.rest| < |s| && r.c.followDone && r.c.followResult.Some? && r.c.calls == c.calls
    ensures NoDoneIn(s) && !c.followDone ==> !(r.Returned? && r.value)
    ensures r.Returned? && !r.value ==>
      && |r.c.trace| > 0
      && (|| (Last(r.c.trace) == SetPreempted
              && r.c.calls == Plus(c.calls, NoActions.(cancels := 1, terminals := 1)))
          || (Last(r.c.trace) == SetAborted(TimeoutResult)
              && r.c.calls == Plus(c.calls, NoActions.(terminals := 1))))
    ensures FollowsScript(c, s, r)
    ensures ExpiresAfterEnd(FollowWait(false), s) ==> !r.Blocked?
    ensures r.Returned? && r.value ==> Consumed(c, s, r.c, r.rest)
  {
    var f := AwaitFollower(c, s);
    if !f.Returned? || !f.value {
      FollowComposes(c, s, f, f, f);
      if ExpiresAfterEnd(FollowWait(false), s) {
        FollowsScriptExpiry(c, s, f);
      }
      return f;
    }
    ghost var d;
    r, d := FinishFollow(f.c, f.rest);
    FollowComposes(c, s, f, d, r);
    if r.Returned? && r.value {
      ConsumedThen(c, s, f.c, f.c, f.rest, r.c, r.rest);
    }
    if ExpiresAfterEnd(FollowWait(false), s) {
      FollowsScriptExpiry(c, s, r);
    }
  }

  /** The end of the follow part: the done-flag wait `d`, and the STATUS_TIMEOUT abort on its deadline. */
  method FinishFollow(c: Controller, s: seq<Event>) returns (r: Outcome<bool>, ghost d: Outcome<bool>)
    requires c.active && DoneHasResult(c)
    ensures !r.Crashed? && c.trace <= r.c.trace
    ensures r.Returned? ==> (r.value <==> r.c.active) && |r.rest| <= |s| && (NoDoneIn(s) ==> NoDoneIn(r.rest))
    ensures r.Returned? && r.value ==> r.c.followDone && r.c.followResult.Some? && r.c.calls == c.calls
    ensures NoDoneIn(s) && !c.followDone ==> !(r.Returned? && r.value)
    ensures r.Returned? && !r.value ==>
      && |r.c.trace| > 0 && Last(r.c.trace) == SetAborted(TimeoutResult)
      && r.c.calls == Plus(c.calls, NoActions.(terminals := 1))
    ensures DoneWaitScript(c, s, d) && !d.Crashed?
    ensures d.Blocked? ==> r.Blocked?
    ensures d.Returned? ==> r.Returned? && r.rest == d.rest && r.value == d.value
    ensures d.Returned? && d.value ==> r.c.followResult == d.c.followResult && r.c.finalState == d.c.finalState
    ensures d.Returned? && !d.value ==> |r.c.trace| > 0 && Last(r.c.trace) == SetAborted(TimeoutResult)
    ensures r.Returned? && r.value ==> Consumed(c, s, r.c, r.rest)
  {
    var w := WaitForFollowPathDone(c, s);
    d := w;
    if !w.Returned? {
      r := w;
    } else if !w.value {
      r := Returned(EndGoal(w.c, SetAborted(TimeoutResult)), w.rest, false);
    } else {
      r := Returned(w.c, w.rest, true);
    }
  }

  /**
    The checks of processGoal on the controller `c` and the events `s`: no
    stored path is a crash, a short one aborts the goal with
    STATUS_NO_PATH_FOUND, a pending preempt ends it preempted, and otherwise
    the path is followed after the PATH_READY feedback and the follow goal;
    a deadline after the end of the isDone loop keeps it from blocking.
   */
  predicate Checked(c: Controller, goal: NavGoal, s: seq<Event>, r: Outcome<bool>) {
    && (c.requestedPath.None? ==> r == Crashed(c, NullRequestedPath))
    && (c.requestedPath.Some? && |c.requestedPath.value.poses| < 2 ==>
          r == Returned(EndGoal(c, SetAborted(NoPathResult)), s, false))
    && (c.requestedPath.Some? && |c.requestedPath.value.poses| >= 2 && c.preemptRequested ==>
          r == Returned(EndGoal(c, SetPreempted), s, false))
    && (c.requestedPath.Some? && |c.requestedPath.value.poses| >= 2 && !c.preemptRequested ==>
          && !r.Crashed?
          && c.trace + [PublishFeedback(PathReadyFeedback),
                        SendFollowGoal(FollowGoalFor(goal, c.requestedPath.value), Supervised)] <= r.c.trace
          && FollowsScript(c, s, r))
    && (ExpiresAfterEnd(FollowWait(false), s) ==> !r.Blocked?)
  }

  /**
    processGoal after the plan wait: the path-length check comes first, then
    the preempt check, then PATH_READY feedback and the follow goal.
   */
  method CheckPlanAndFollow(c: Controller, goal: NavGoal, s: seq<Event>) returns (r: Outcome<bool>)
    requires c.active && DoneHasResult(c)
    ensures Checked(c, goal, s, r)
    ensures c.trace <= r.c.trace
    ensures r.Returned? ==> (r.value <==> r.c.active) && |r.rest| <= |s| && (NoDoneIn(s) ==> NoDoneIn(r.rest))
    ensures r.Returned? && r.value ==>
      && |r.rest| < |s| && r.c.followDone && r.c.followResult.Some?
      && r.c.calls == Plus(c.calls, NoActions.(follows := 1))
    ensures NoDoneIn(s) && !c.followDone ==> !(r.Returned? && r.value)
    ensures r.Returned? && !r.value ==>
      ProcessEnding(Last(r.c.trace)) && EndedRun(c.calls, r.c.calls, 0, Last(r.c.trace))
    ensures r.Returned? && r.value ==> Consumed(c, s, r.c, r.rest)
  {
    if c.requestedPath.None? {
      return Crashed(c, NullRequestedPath);
    }
    var path := c.requestedPath.value;
    if |path.poses| < 2 {
      return Returned(EndGoal(c, SetAborted(NoPathResult)), s, false);
    }
    if c.preemptRequested {
      return Returned(EndGoal(c, SetPreempted), s, false);
    }
    r := Follow(c, goal, path, s);
  }

  /**
    What processGoal makes of the events `s` once the plan wait for the goal
    stamped `stamp` runs, starting from `c`. The wait blocks the run when no
    event ends it; a deadline after the end of the follow goal's isDone loop
    keeps the run from blocking. Where the wait ends, the checks of
    processGoal decide the run.
   */
  predicate ProcessScript(c: Controller, stamp: Stamp, s: seq<Event>, r: Outcome<bool>) {
    WaitingForPath(c.(token := stamp)) ==>
      && (EndIndex(PathWait(stamp), s) == |s| ==> r.Blocked?)
      && (ExpiresAfterEnd(FollowWait(false), After(PathWait(stamp), s)) ==> !r.Blocked?)
      && (EndIndex(PathWait(stamp), s) < |s| ==> PathChecked(c, s, EndIndex(PathWait(stamp), s), r))
  }

  /**
    The path the checks of processGoal read once the plan wait ended on `e`:
    the awaited path, or, when the wait was interrupted, the one already stored.
   */
  function CheckedPath(c: Controller, e: Event): Option<Path> {
    if e.PathArrives? then Some(e.path) else c.requestedPath
  }

  /**
    processGoal once the plan wait ended on the `k`-th event of `s`, from `c`
    before the wait. No path is a crash; a short one aborts the goal with
    STATUS_NO_PATH_FOUND; a usable one after a cancel or a new goal ends the
    goal preempted; a usable one after the awaited path or a shutdown is
    followed on the events after the `k`-th.
   */
  predicate PathChecked(c: Controller, s: seq<Event>, k: nat, r: Outcome<bool>)
    requires k < |s|
  {
    var p := CheckedPath(c, s[k]);
    && (p.None? ==> r.Crashed? && r.fault == NullRequestedPath)
    && (p.Some? && |p.value.poses| < 2 ==>
          && r.Returned? && !r.value && r.rest == s[k + 1..]
          && |r.c.trace| > 0 && Last(r.c.trace) == SetAborted(NoPathResult))
    && (p.Some? && |p.value.poses| >= 2 && (s[k].CancelRequested? || s[k].NewGoalArrives?) ==>
          && r.Returned? && !r.value && r.rest == s[k + 1..]
          && |r.c.trace| > 0 && Last(r.c.trace) == SetPreempted)
    && (p.Some? && |p.value.poses| >= 2 && (s[k].PathArrives? || s[k].Shutdown?) ==> PathFollowed(c, s, k, r))
  }

  /**
    The follow part of processGoal on the events after the `k`-th event of
    `s`, which ended the plan wait, from `c` before the wait. Its isDone loop
    blocks the run when no event ends it; a done callback completes the run
    with its result. A cancel or new goal ends the run preempted: at once
    when a late done callback of the goal followed before already raised the
    done flag during the plan wait, otherwise once the bounded wait for the
    cancelled goal's done flag is over. A finish completes the run with the
    result of that late callback when there was one; otherwise it leads to
    the bounded wait for the done flag, whose deadline aborts the goal with
    STATUS_TIMEOUT.
   */
  predicate PathFollowed(c: Controller, s: seq<Event>, k: nat, r: Outcome<bool>)
    requires k < |s|
  {
    var f := s[k + 1..];
    var j := EndIndex(FollowWait(false), f);
    var late := LateDone(c, s, k);
    && !r.Crashed?
    && (j == |f| ==> r.Blocked?)
    && (j < |f| && f[j].FollowerDone? ==>
          && r.Returned? && r.value && r.rest == f[j + 1..]
          && r.c.followResult == Some(f[j].result) && r.c.finalState == Some(f[j].state))
    && (j < |f| && (f[j].CancelRequested? || f[j].NewGoalArrives?) ==>
          var t := f[j + 1..];
          var i := EndIndex(DoneWait(true), t);
          && (r.Returned? ==> !r.value && |r.c.trace| > 0 && Last(r.c.trace) == SetPreempted)
          && (late ==>
                && r.Returned? && r.rest == t
                && r.c.followResult == Some(s[FirstDone(s, k)].result) && r.c.finalState == Some(s[FirstDone(s, k)].state))
          && (!late ==> (r.Blocked? <==> i == |t|) && (r.Returned? ==> r.rest == t[i + 1..])))
    && (j < |f| && f[j].FollowerFinishes? && late ==>
          && r.Returned? && r.value && r.rest == f[j + 1..]
          && r.c.followResult == Some(s[FirstDone(s, k)].result) && r.c.finalState == Some(s[FirstDone(s, k)].state))
    && (j < |f| && f[j].FollowerFinishes? && !late ==>
          var t := f[j + 1..];
          var i := EndIndex(DoneWait(true), t);
          && (r.Blocked? <==> i == |t|)
          && (i < |t| ==> r.Returned? && r.rest == t[i + 1..] && (r.value <==> t[i].FollowerDone?))
          && (i < |t| && t[i].FollowerDone? ==>
                r.c.followResult == Some(t[i].result) && r.c.finalState == Some(t[i].state))
          && (i < |t| && t[i].ClockExpires? ==>
                |r.c.trace| > 0 && Last(r.c.trace) == SetAborted(TimeoutResult)))
  }

  /** The follow part after the plan wait is the follow part run on the controller the wait left. */
  lemma PathFollowedFrom(c: Controller, s: seq<Event>, k: nat, w: Controller, r: Outcome<bool>)
    requires k < |s| && FollowsScript(w, s[k + 1..], r) && !r.Crashed?
    requires LateDone(c, s, k) ==>
      w.followDone && w.followResult == Some(s[FirstDone(s, k)].result) && w.finalState == Some(s[FirstDone(s, k)].state)
    requires !LateDone(c, s, k) ==> !w.followDone
    ensures PathFollowed(c, s, k, r)
  {
  }

  /**
    The checks of processGoal on the controller `w` the plan wait left when
    it ended on the `k`-th event of `s`, from `c` before the wait.
   */
  lemma PathCheckedFrom(c: Controller, s: seq<Event>, k: nat, w: Controller, r: Outcome<bool>)
    requires k < |s| && w.requestedPath == CheckedPath(c, s[k])
    requires w.preemptRequested <==> s[k].CancelRequested? || s[k].NewGoalArrives?
    requires LateDone(c, s, k) ==>
      w.followDone && w.followResult == Some(s[FirstDone(s, k)].result) && w.finalState == Some(s[FirstDone(s, k)].state)
    requires !LateDone(c, s, k) ==> !w.followDone
    requires w.requestedPath.None? ==> r == Crashed(w, NullRequestedPath)
    requires w.requestedPath.Some? && |w.requestedPath.value.poses| < 2 ==>
      r == Returned(EndGoal(w, SetAborted(NoPathResult)), s[k + 1..], false)
    requires w.requestedPath.Some? && |w.requestedPath.value.poses| >= 2 && w.preemptRequested ==>
      r == Returned(EndGoal(w, SetPreempted), s[k + 1..], false)
    requires w.requestedPath.Some? && |w.requestedPath.value.poses| >= 2 && !w.preemptRequested ==>
      FollowsScript(w, s[k + 1..], r) && !r.Crashed?
    ensures PathChecked(c, s, k, r)
  {
    var p := w.requestedPath;
    if p.Some? && |p.value.poses| >= 2 && !w.preemptRequested {
      PathFollowedFrom(c, s, k, w, r);
    }
  }

  /** processGoal is the plan wait `w`, from a lowered done flag, followed by the checks and the follow part. */
  lemma ProcessComposes(c: Controller, goal: NavGoal, s: seq<Event>, w: Outcome<()>, r: Outcome<bool>)
    requires PlanWaitScript(c.(followDone := false), goal.goalPose.stamp, s, w)
    requires !w.Returned? ==> r.Blocked? == w.Blocked?
    requires w.Returned? ==> Checked(w.c, goal, w.rest, r)
    ensures ProcessScript(c, goal.goalPose.stamp, s, r)
  {
    var stamp := goal.goalPose.stamp;
    var k := EndIndex(PathWait(stamp), s);
    if WaitingForPath(c.(token := stamp)) && k < |s| {
      assert w.Returned? && w.rest == After(PathWait(stamp), s) && w.rest == s[k + 1..];
      PathCheckedFrom(c, s, k, w.c, r);
    }
  }

  /**
    What processGoal makes of the events `s` when its plan wait does not run:
    the path check reads the path an earlier goal left behind, or crashes on
    none; a short path aborts the goal with STATUS_NO_PATH_FOUND and
    nothing else. A usable one, with a preempt pending, ends the goal
    preempted before any follow goal is sent; without one it is followed on
    all of `s`, from the lowered done flag, with a deadline after the end of
    the isDone loop keeping the run from blocking.
   */
  predicate IdleScript(c: Controller, goal: NavGoal, s: seq<Event>, r: Outcome<bool>) {
    !WaitingForPath(c.(token := goal.goalPose.stamp)) ==>
      && (c.requestedPath.None? ==> r.Crashed?)
      && (c.requestedPath.Some? && |c.requestedPath.value.poses| < 2 ==>
            && r.Returned? && !r.value && r.rest == s
            && r.c.trace == c.trace + [PublishGoalPose(goal.goalPose), SetAborted(NoPathResult)]
            && r.c.followResult == c.followResult && r.c.finalState == c.finalState)
      && (c.requestedPath.Some? && |c.requestedPath.value.poses| >= 2 && c.preemptRequested ==>
            && r.Returned? && !r.value && r.rest == s
            && r.c.trace == c.trace + [PublishGoalPose(goal.goalPose), SetPreempted])
      && (c.requestedPath.Some? && |c.requestedPath.value.poses| >= 2 && !c.preemptRequested ==>
            && c.trace + [PublishGoalPose(goal.goalPose), PublishFeedback(PathReadyFeedback),
                          SendFollowGoal(FollowGoalFor(goal, c.requestedPath.value), Supervised)] <= r.c.trace
            && FollowsScript(c.(followDone := false), s, r))
      && (ExpiresAfterEnd(FollowWait(false), s) ==> !r.Blocked?)
  }

  /** When the plan wait does not run, processGoal is the goal pose, then the checks and the follow part. */
  lemma IdleComposes(c: Controller, goal: NavGoal, s: seq<Event>, w: Outcome<()>, r: Outcome<bool>)
    requires !WaitingForPath(c.(token := goal.goalPose.stamp)) ==>
      w == Returned(Emit(c.(followDone := false).(token := goal.goalPose.stamp), PublishGoalPose(goal.goalPose)), s, ())
    requires w.Returned? ==> Checked(w.c, goal, w.rest, r)
    ensures IdleScript(c, goal, s, r)
  {
    if !WaitingForPath(c.(token := goal.goalPose.stamp)) && c.requestedPath.Some? {
      assert w.c.trace == c.trace + [PublishGoalPose(goal.goalPose)];
      if |c.requestedPath.value.poses| >= 2 && !c.preemptRequested {
        FollowsScriptFrame(w.c, c.(followDone := false), s, r);
      }
      assert w.c.trace + [PublishFeedback(PathReadyFeedback),
        SendFollowGoal(FollowGoalFor(goal, c.requestedPath.value), Supervised)]
        == c.trace + [PublishGoalPose(goal.goalPose), PublishFeedback(PathReadyFeedback),
        SendFollowGoal(FollowGoalFor(goal, c.requestedPath.value), Supervised)];
    }
  }

  /**
    The steps of processGoal: `w` is the plan wait from the lowered done
    flag and, when it returned, `r` is the checks and the follow part on the
    events it left.
   */
  predicate Steps(c: Controller, goal: NavGoal, s: seq<Event>, w: Outcome<()>, r: Outcome<bool>) {
    var stamp := goal.goalPose.stamp;
    && PlanWaitScript(c.(followDone := false), stamp, s, w)
    && (!WaitingForPath(c.(token := stamp)) ==>
          w == Returned(Emit(c.(followDone := false).(token := stamp), PublishGoalPose(goal.goalPose)), s, ()))
    && (!w.Returned? ==> r == Halted(w))
    && (w.Returned? ==> Checked(w.c, goal, w.rest, r))
    && (w.Returned? ==> Consumed(c.(followDone := false).(token := stamp), s, w.c, w.rest))
    && (w.Returned? && r.Returned? && r.value ==> Consumed(w.c, w.rest, r.c, r.rest))
  }

  /** What the steps of processGoal make of the events, whether or not the plan wait runs. */
  lemma StepsCompose(c: Controller, goal: NavGoal, s: seq<Event>, w: Outcome<()>, r: Outcome<bool>)
    requires Steps(c, goal, s, w, r)
    ensures IdleScript(c, goal, s, r)
    ensures ProcessScript(c, goal.goalPose.stamp, s, r)
    ensures r.Returned? && r.value ==> Consumed(c.(token := goal.goalPose.stamp), s, r.c, r.rest)
  {
    RunConsumed(c, goal.goalPose.stamp, s, w, r);
    ProcessComposes(c, goal, s, w, r);
    IdleComposes(c, goal, s, w, r);
  }

  /** The body of processGoal: reset the done flag, wait for the plan, check it and follow it. */
  method ProcessSteps(c: Controller, goal: NavGoal, s: seq<Event>) returns (r: Outcome<bool>, ghost w: Outcome<()>)
    requires c.active
    ensures r.Crashed? ==> r.fault == NullRequestedPath
    ensures c.trace + [PublishGoalPose(goal.goalPose)] <= r.c.trace
    ensures r.Returned? ==> (r.value <==> r.c.active) && |r.rest| <= |s| && (NoDoneIn(s) ==> NoDoneIn(r.rest))
    ensures r.Returned? && r.value ==>
      && |r.rest| < |s| && r.c.followDone && r.c.followResult.Some?
      && r.c.calls == Plus(c.calls, NoActions.(plans := 1, follows := 1))
    // the done flag is reset first: without a done callback during the run it stays down
    ensures NoDoneIn(s) ==> !(r.Returned? && r.value)
    ensures r.Returned? && !r.value ==>
      ProcessEnding(Last(r.c.trace)) && EndedRun(c.calls, r.c.calls, 1, Last(r.c.trace))
    ensures Steps(c, goal, s, w, r)
  {
    var v := WaitForPath(c.(followDone := false), goal.goalPose, s);
    w := v;
    if !v.Returned? {
      r := Halted(v);
    } else {
      r := CheckPlanAndFollow(v.c, goal, v.rest);
    }
  }

  /**
    processGoal: reset the done flag, plan, check, follow. It returns true
    only when the follow goal finished and a done callback ran after the
    reset, which may be a late one of the goal followed before; in every
    other returned case it has already ended the goal.
   */
  method ProcessGoal(c: Controller, goal: NavGoal, s: seq<Event>) returns (r: Outcome<bool>)
    requires c.active
    ensures r.Crashed? ==> r.fault == NullRequestedPath
    ensures c.trace + [PublishGoalPose(goal.goalPose)] <= r.c.trace
    ensures r.Returned? ==> (r.value <==> r.c.active) && |r.rest| <= |s| && (NoDoneIn(s) ==> NoDoneIn(r.rest))
    ensures r.Returned? && r.value ==>
      && |r.rest| < |s| && r.c.followDone && r.c.followResult.Some?
      && r.c.calls == Plus(c.calls, NoActions.(plans := 1, follows := 1))
    // the done flag is reset first: without a done callback during the run it stays down
    ensures NoDoneIn(s) ==> !(r.Returned? && r.value)
    ensures r.Returned? && !r.value ==>
      ProcessEnding(Last(r.c.trace)) && EndedRun(c.calls, r.c.calls, 1, Last(r.c.trace))
    // when the wait does not run (no stamp, shutdown, a pending preempt or new goal),
    // the path check reads whatever path an earlier goal left behind
    ensures IdleScript(c, goal, s, r)
    ensures ProcessScript(c, goal.goalPose.stamp, s, r)
    // a true run consumed the events before its rest; only their callbacks moved the flags
    ensures r.Returned? && r.value ==> Consumed(c.(token := goal.goalPose.stamp), s, r.c, r.rest)
  {
    ghost var w;
    r, w := ProcessSteps(c, goal, s);
    StepsCompose(c, goal, s, w, r);
  }

  /** processGoal consumes the events of its plan wait, then those of its follow part. */
  lemma RunConsumed(c: Controller, stamp: Stamp, s: seq<Event>, w: Outcome<()>, r: Outcome<bool>)
    requires w.Returned? ==> Consumed(c.(followDone := false).(token := stamp), s, w.c, w.rest)
    requires w.Returned? && r.Returned? && r.value ==> Consumed(w.c, w.rest, r.c, r.rest)
    requires !w.Returned? ==> !r.Returned?
    ensures r.Returned? && r.value ==> Consumed(c.(token := stamp), s, r.c, r.rest)
  {
    if r.Returned? && r.value {
      ConsumedFrom(c.(token := stamp), c.(followDone := false).(token := stamp), s, w.c, w.rest);
      ConsumedThen(c.(token := stamp), s, w.c, w.c, w.rest, r.c, r.rest);
    }
  }

  /** handleFollowPathResult: translate the stored result and end the goal by the final state. */
  function HandleFollowPathResult(c: Controller, s: seq<Event>): (r: Outcome<()>)
    ensures r.Crashed? <==> c.followResult.None?
    ensures r.Crashed? ==> r == Crashed(c, NullFollowResult)
    ensures r.Returned? ==>
      && r.rest == s && !r.c.active
      && r.c.trace == c.trace + [TerminalFor(c.finalState, NavResultOf(c.followResult.value))]
      && r.c.calls == Plus(c.calls, NoActions.(terminals := 1))
  {
    if c.followResult.None? then Crashed(c, NullFollowResult)
    else Returned(EndGoal(c, TerminalFor(c.finalState, NavResultOf(c.followResult.value))), s, ())
  }

  /** The terminal calls the replan loop can end a goal with. */
  predicate ReplanEnding(e: Effect) {
    || ProcessEnding(e)
    || ((e.SetAborted? || e.SetSucceeded?) && e.result.reachedGoal && e.result.status == StatusSuccess)
  }

  /**
    The calls of a Replan-mode goal: one terminal call, one plan request
    more than STATUS_REPLAN feedbacks, a follow goal for every replan (and
    perhaps for the last attempt), at most one cancel.
   */
  predicate ReplanCalls(before: Tally, after: Tally) {
    && after.terminals == before.terminals + 1
    && after.plans - before.plans == after.replans - before.replans + 1
    && after.replans - before.replans <= after.follows - before.follows <= after.replans - before.replans + 1
    && after.unexpectedRuns == before.unexpectedRuns
    && before.cancels <= after.cancels <= before.cancels + 1
  }

  /**
    One round of the Replan mode: processGoal and, when it returns true with
    a non-SUCCESS result, the STATUS_REPLAN feedback.
   */
  method ReplanRound(c: Controller, goal: NavGoal, s: seq<Event>) returns (r: Outcome<bool>)
    requires c.active
    ensures r.Crashed? ==> r.fault == NullRequestedPath
    ensures c.trace + [PublishGoalPose(goal.goalPose)] <= r.c.trace
    ensures r.Returned? ==> (r.value <==> r.c.active) && |r.rest| <= |s|
    // a completed round is replanned exactly when its result is not SUCCESS
    ensures r.Returned? && r.value ==>
      && |r.rest| < |s| && r.c.followResult.Some?
      && (r.c.followResult.value.status != MotionSuccess ==> Last(r.c.trace) == PublishFeedback(ReplanFeedback))
      && r.c.calls == Plus(c.calls, NoActions.(plans := 1, follows := 1,
                                               replans := if r.c.followResult.value.status == MotionSuccess then 0 else 1))
    ensures r.Returned? && !r.value ==>
      ProcessEnding(Last(r.c.trace)) && EndedRun(c.calls, r.c.calls, 1, Last(r.c.trace))
    // the feedback changes neither how the round ends nor the result it stored
    ensures ProcessScript(c, goal.goalPose.stamp, s, r)
    ensures IdleScript(c, goal, s, r)
    // a completed round consumed the events before its rest: only their callbacks moved the flags
    ensures r.Returned? && r.value ==> Consumed(c.(token := goal.goalPose.stamp), s, r.c, r.rest)
  {
    var p := ProcessGoal(c, goal, s);
    if p.Returned? && p.value && p.c.followResult.value.status != MotionSuccess {
      r := Returned(Emit(p.c, PublishFeedback(ReplanFeedback)), p.rest, p.value);
      ReplanFeedbackFrame(c, goal, s, p, r);
    } else {
      r := p;
    }
  }

  /** A true round stays what processGoal made of the script when only the trace grows after it. */
  lemma ProcessScriptFrame(c: Controller, stamp: Stamp, s: seq<Event>, p: Outcome<bool>, r: Outcome<bool>)
    requires ProcessScript(c, stamp, s, p) && p.Returned? && p.value
    requires r == Returned(p.c.(trace := r.c.trace, calls := r.c.calls), p.rest, true)
    ensures ProcessScript(c, stamp, s, r)
  {
  }

  /** The same for a true round when the plan wait does not run. */
  lemma IdleScriptFrame(c: Controller, goal: NavGoal, s: seq<Event>, p: Outcome<bool>, r: Outcome<bool>)
    requires IdleScript(c, goal, s, p) && p.Returned? && p.value
    requires r == Returned(p.c.(trace := r.c.trace, calls := r.c.calls), p.rest, true) && p.c.trace <= r.c.trace
    ensures IdleScript(c, goal, s, r)
  {
  }

  /** The STATUS_REPLAN feedback after a true round changes nothing processGoal made of the events. */
  lemma ReplanFeedbackFrame(c: Controller, goal: NavGoal, s: seq<Event>, p: Outcome<bool>, r: Outcome<bool>)
    requires ProcessScript(c, goal.goalPose.stamp, s, p) && IdleScript(c, goal, s, p)
    requires p.Returned? && p.value && Consumed(c.(token := goal.goalPose.stamp), s, p.c, p.rest)
    requires r == Returned(Emit(p.c, PublishFeedback(ReplanFeedback)), p.rest, true)
    ensures ProcessScript(c, goal.goalPose.stamp, s, r) && IdleScript(c, goal, s, r)
    ensures Consumed(c.(token := goal.goalPose.stamp), s, r.c, r.rest)
  {
    ProcessScriptFrame(c, goal.goalPose.stamp, s, p, r);
    IdleScriptFrame(c, goal, s, p, r);
  }

  /** The motion statuses of the rounds of a Replan-mode goal end with SUCCESS. */
  predicate EndsWithSuccess(statuses: seq<MotionStatus>) {
    |statuses| > 0 && statuses[|statuses| - 1] == MotionSuccess
  }

  /** The controller round `i` of a Replan-mode goal starts from: `c`, then what the round before left. */
  function RoundStart(c: Controller, rounds: seq<Outcome<bool>>, i: nat): Controller
    requires i <= |rounds|
  {
    if i == 0 then c else rounds[i - 1].c
  }

  /** A round that returned true with a non-SUCCESS result, which the Replan mode replans. */
  predicate Replanned(p: Outcome<bool>) {
    p.Returned? && p.value && p.c.followResult.Some? && p.c.followResult.value.status != MotionSuccess
  }

  /** `holds` of every round, the controller it started from and the events it started on. */
  predicate EveryRound(holds: (Controller, seq<Event>, Outcome<bool>) -> bool, c: Controller,
                       rounds: seq<Outcome<bool>>, rests: seq<seq<Event>>) {
    |rounds| <= |rests| && forall i | 0 <= i < |rounds| :: holds(RoundStart(c, rounds, i), rests[i], rounds[i])
  }

  /** One more round, on the events the rounds so far left, for which `holds` holds too. */
  lemma EveryRoundExtend(holds: (Controller, seq<Event>, Outcome<bool>) -> bool, c: Controller,
                         rounds: seq<Outcome<bool>>, rests: seq<seq<Event>>, p: Outcome<bool>, rests': seq<seq<Event>>)
    requires EveryRound(holds, c, rounds, rests) && |rounds| < |rests|
    requires holds(RoundStart(c, rounds, |rounds|), rests[|rounds|], p)
    requires rests <= rests'
    ensures EveryRound(holds, c, rounds + [p], rests')
  {
    var rounds' := rounds + [p];
    forall i | 0 <= i < |rounds'|
      ensures holds(RoundStart(c, rounds', i), rests'[i], rounds'[i])
    {
      assert RoundStart(c, rounds', i) == RoundStart(c, rounds, i) && rests'[i] == rests[i];
    }
  }

  /**
    What processGoal, with its STATUS_REPLAN, makes of a round of `goal`,
    whether its plan wait runs or not; a completed round consumed the events
    before the ones it leaves to the next round.
   */
  function RoundScript(goal: NavGoal): (Controller, seq<Event>, Outcome<bool>) -> bool {
    (c, s, r) =>
      && ProcessScript(c, goal.goalPose.stamp, s, r) && IdleScript(c, goal, s, r)
      && (r.Returned? && r.value ==> Consumed(c.(token := goal.goalPose.stamp), s, r.c, r.rest))
  }

  /** A round with what ReplanRound promises of it is a round of `RoundScript`. */
  lemma RoundScriptHolds(goal: NavGoal, c: Controller, s: seq<Event>, r: Outcome<bool>)
    requires ProcessScript(c, goal.goalPose.stamp, s, r) && IdleScript(c, goal, s, r)
    requires r.Returned? && r.value ==> Consumed(c.(token := goal.goalPose.stamp), s, r.c, r.rest)
    ensures RoundScript(goal)(c, s, r)
  {
  }

  /**
    Rounds that were all replanned, each starting on the events the one
    before left, with their motion statuses.
   */
  predicate Chained(rounds: seq<Outcome<bool>>, rests: seq<seq<Event>>, statuses: seq<MotionStatus>) {
    && |statuses| == |rounds| && |rests| == |rounds| + 1
    && (forall i | 0 <= i < |rounds| ::
          && Replanned(rounds[i]) && rests[i + 1] == rounds[i].rest
          && statuses[i] == rounds[i].c.followResult.value.status)
  }

  /**
    The rounds of a Replan-mode goal so far, all replanned: each is what
    processGoal, with its STATUS_REPLAN, made of the events the round before
    left, and `statuses` are their motion statuses.
   */
  predicate RoundsSoFar(c: Controller, goal: NavGoal, s: seq<Event>, rounds: seq<Outcome<bool>>,
                        rests: seq<seq<Event>>, statuses: seq<MotionStatus>) {
    && |rests| > 0 && rests[0] == s
    && EveryRound(RoundScript(goal), c, rounds, rests)
    && Chained(rounds, rests, statuses)
  }

  /**
    How a Replan-mode goal ends: every round but the last was replanned and
    the next one started on the events it left; the goal ends as its last
    round does, and its result is handled exactly after a true SUCCESS
    round. `statuses` are the motion statuses of the rounds that returned true.
   */
  predicate RoundsEnded(rounds: seq<Outcome<bool>>, rests: seq<seq<Event>>, statuses: seq<MotionStatus>, r: Outcome<()>) {
    && |rounds| > 0 && |rests| == |rounds|
    && (forall i | 0 <= i < |rounds| - 1 :: Replanned(rounds[i]) && rests[i + 1] == rounds[i].rest)
    && var l := rounds[|rounds| - 1];
    && (r.Blocked? <==> l.Blocked?) && (r.Crashed? <==> l.Crashed?)
    && (l.Returned? && !l.value ==> r == Returned(l.c, l.rest, ()))
    && (l.Returned? && l.value ==>
          && l.c.followResult.Some? && l.c.followResult.value.status == MotionSuccess
          && r == HandleFollowPathResult(l.c, l.rest))
    && |statuses| == |rounds| - (if l.Returned? && l.value then 0 else 1)
    && (forall i | 0 <= i < |statuses| ::
          rounds[i].Returned? && rounds[i].c.followResult.Some? && statuses[i] == rounds[i].c.followResult.value.status)
  }

  /**
    A whole Replan-mode goal on the events `s`: every round is processGoal,
    with its STATUS_REPLAN, on the events the round before left, and the
    goal ends as `RoundsEnded` says.
   */
  predicate ReplanRounds(c: Controller, goal: NavGoal, s: seq<Event>, rounds: seq<Outcome<bool>>,
                         rests: seq<seq<Event>>, statuses: seq<MotionStatus>, r: Outcome<()>) {
    && |rests| > 0 && rests[0] == s
    && EveryRound(RoundScript(goal), c, rounds, rests)
    && RoundsEnded(rounds, rests, statuses, r)
  }

  /** One more replanned round. */
  lemma RoundsStep(c: Controller, goal: NavGoal, s: seq<Event>, rounds: seq<Outcome<bool>>,
                   rests: seq<seq<Event>>, statuses: seq<MotionStatus>, p: Outcome<bool>)
    requires RoundsSoFar(c, goal, s, rounds, rests, statuses)
    requires RoundScript(goal)(RoundStart(c, rounds, |rounds|), rests[|rounds|], p) && Replanned(p)
    ensures RoundsSoFar(c, goal, s, rounds + [p], rests + [p.rest], statuses + [p.c.followResult.value.status])
  {
    EveryRoundExtend(RoundScript(goal), c, rounds, rests, p, rests + [p.rest]);
  }

  /** The last round `p`, with the result handled when it is a true SUCCESS round, ends the goal. */
  lemma RoundsExit(rounds: seq<Outcome<bool>>, rests: seq<seq<Event>>, statuses: seq<MotionStatus>,
                   p: Outcome<bool>, r: Outcome<()>)
    requires Chained(rounds, rests, statuses) && !Replanned(p)
    requires !p.Returned? ==> r == Halted(p)
    requires p.Returned? && !p.value ==> r == Returned(p.c, p.rest, ())
    requires p.Returned? && p.value ==>
      p.c.followResult.Some? && r == HandleFollowPathResult(p.c, p.rest)
    ensures RoundsEnded(rounds + [p], rests, statuses + (if p.Returned? && p.value then [MotionSuccess] else []), r)
  {
    var rounds' := rounds + [p];
    var statuses' := statuses + (if p.Returned? && p.value then [MotionSuccess] else []);
    assert rounds'[|rounds'| - 1] == p;
    assert forall i | 0 <= i < |rounds| :: rounds'[i] == rounds[i];
    assert forall i | 0 <= i < |statuses| :: statuses'[i] == statuses[i];
  }

  /**
    The calls and trace after `n` replanned rounds from `c`, now at `cur`:
    one plan request, one follow goal and one STATUS_REPLAN per round.
   */
  predicate CallsSoFar(c: Controller, goal: NavGoal, n: nat, cur: Controller) {
    && cur.active
    && (n == 0 ==> cur.trace == c.trace)
    && (n > 0 ==> c.trace + [PublishGoalPose(goal.goalPose)] <= cur.trace)
    && cur.calls == Plus(c.calls, Tally(n, n, 0, 0, 0, n))
  }

  /**
    The round `p` that ends the loop of a goal started from `c`: it is not
    replanned, and a true one has a SUCCESS result.
   */
  predicate RoundEnding(c: Controller, goal: NavGoal, p: Outcome<bool>) {
    && !Replanned(p)
    && (p.Crashed? ==> p.fault == NullRequestedPath)
    && c.trace + [PublishGoalPose(goal.goalPose)] <= p.c.trace
    && (p.Returned? ==> (p.value <==> p.c.active))
    && (p.Returned? && p.value ==> p.c.followResult.Some? && p.c.followResult.value.status == MotionSuccess)
  }

  /**
    The calls of the round `p` that ends the loop, after `n` replanned
    rounds from `c`: a true one adds one more plan request and follow goal;
    a false one has ended the goal itself.
   */
  predicate LastRound(c: Controller, n: nat, p: Outcome<bool>) {
    && (p.Returned? && p.value ==> p.c.calls == Plus(c.calls, Tally(n + 1, n + 1, 0, 0, 0, n)))
    && (p.Returned? && !p.value ==>
          && |p.c.trace| > 0 && ProcessEnding(Last(p.c.trace))
          && EndedRun(Plus(c.calls, Tally(n, n, 0, 0, 0, n)), p.c.calls, 1, Last(p.c.trace)))
  }

  /** The calls of one more round, from what ReplanRound promises of them. */
  lemma RoundCallsStep(c: Controller, goal: NavGoal, n: nat, cur: Controller, rest: seq<Event>, p: Outcome<bool>)
    requires CallsSoFar(c, goal, n, cur)
    requires p.Crashed? ==> p.fault == NullRequestedPath
    requires cur.trace + [PublishGoalPose(goal.goalPose)] <= p.c.trace
    requires p.Returned? ==> (p.value <==> p.c.active) && |p.rest| <= |rest|
    requires p.Returned? && p.value ==>
      && |p.rest| < |rest| && p.c.followResult.Some?
      && p.c.calls == Plus(cur.calls, NoActions.(plans := 1, follows := 1,
                                               replans := if p.c.followResult.value.status == MotionSuccess then 0 else 1))
    requires p.Returned? && !p.value ==>
      ProcessEnding(Last(p.c.trace)) && EndedRun(cur.calls, p.c.calls, 1, Last(p.c.trace))
    ensures Replanned(p) ==> |p.rest| < |rest| && CallsSoFar(c, goal, n + 1, p.c)
    ensures !Replanned(p) ==> RoundEnding(c, goal, p) && LastRound(c, n, p)
  {
  }

  /** One more round of the Replan mode, on the events the rounds so far left. */
  method ChainRound(ghost c: Controller, goal: NavGoal, ghost s: seq<Event>, ghost rounds: seq<Outcome<bool>>,
                    ghost rests: seq<seq<Event>>, ghost statuses: seq<MotionStatus>, cur: Controller, rest: seq<Event>)
    returns (p: Outcome<bool>)
    requires CallsSoFar(c, goal, |rounds|, cur) && RoundsSoFar(c, goal, s, rounds, rests, statuses)
    requires cur == RoundStart(c, rounds, |rounds|) && rest == rests[|rounds|]
    ensures Replanned(p) ==>
      && |p.rest| < |rest| && CallsSoFar(c, goal, |rounds| + 1, p.c)
      && RoundsSoFar(c, goal, s, rounds + [p], rests + [p.rest], statuses + [p.c.followResult.value.status])
    ensures !Replanned(p) ==>
      && RoundEnding(c, goal, p) && LastRound(c, |rounds|, p)
      && EveryRound(RoundScript(goal), c, rounds + [p], rests)
  {
    p := ReplanRound(cur, goal, rest);
    RoundCallsStep(c, goal, |rounds|, cur, rest, p);
    RoundScriptHolds(goal, cur, rest, p);
    if Replanned(p) {
      RoundsStep(c, goal, s, rounds, rests, statuses, p);
    } else {
      EveryRoundExtend(RoundScript(goal), c, rounds, rests, p, rests);
    }
  }

  /**
    The loop of the Replan mode up to its last round `p`, the first that is
    not replanned; `rounds` are the rounds before it, `rests` the events each
    round started on, and `statuses` their motion statuses.
   */
  method RunRounds(c: Controller, goal: NavGoal, s: seq<Event>)
    returns (p: Outcome<bool>, ghost rounds: seq<Outcome<bool>>, ghost rests: seq<seq<Event>>, ghost statuses: seq<MotionStatus>)
    requires c.active
    ensures RoundsSoFar(c, goal, s, rounds, rests, statuses)
    ensures EveryRound(RoundScript(goal), c, rounds + [p], rests)
    ensures RoundEnding(c, goal, p)
    // each replanned round made one plan request, one follow goal and one STATUS_REPLAN
    ensures LastRound(c, |rounds|, p)
  {
    var cur := c;
    var rest := s;
    rounds, rests, statuses := [], [s], [];
    while true
      invariant CallsSoFar(c, goal, |rounds|, cur) && RoundsSoFar(c, goal, s, rounds, rests, statuses)
      invariant cur == RoundStart(c, rounds, |rounds|) && rest == rests[|rounds|]
      decreases |rest|
    {
      p := ChainRound(c, goal, s, rounds, rests, statuses, cur, rest);
      if !Replanned(p) {
        return;
      }
      rounds, rests, statuses := rounds + [p], rests + [p.rest], statuses + [p.c.followResult.value.status];
      cur, rest := p.c, p.rest;
    }
  }

  /**
    The loop of the Replan mode: rounds until one returns false or returns
    a SUCCESS result, whose result is then handled. `rounds` are the
    outcomes of the rounds, `rests` the events each of them started on, and
    `statuses` the motion statuses of the rounds that returned true, in order.
   */
  method ReplanLoop(c: Controller, goal: NavGoal, s: seq<Event>)
    returns (r: Outcome<()>, ghost statuses: seq<MotionStatus>, ghost rounds: seq<Outcome<bool>>, ghost rests: seq<seq<Event>>)
    requires c.active
    ensures r.Crashed? ==> r.fault == NullRequestedPath
    ensures c.trace + [PublishGoalPose(goal.goalPose)] <= r.c.trace
    ensures r.Returned? ==> !r.c.active && ReplanEnding(Last(r.c.trace)) && ReplanCalls(c.calls, r.c.calls)
    // the rounds are processGoal's, chained, and the goal ends as the last of them
    ensures ReplanRounds(c, goal, s, rounds, rests, statuses, r)
    // every round but the last was a non-SUCCESS result, and each of them was replanned
    ensures forall i | 0 <= i < |statuses| - 1 :: statuses[i] != MotionSuccess
    ensures r.Returned? ==> r.c.calls.replans == c.calls.replans + |statuses| - (if EndsWithSuccess(statuses) then 1 else 0)
    // the result is handled exactly after a SUCCESS round, and then it is that round's result
    ensures EndsWithSuccess(statuses) ==>
      && r.Returned? && r.c.followResult.Some? && r.c.followResult.value.status == MotionSuccess
      && Last(r.c.trace) == TerminalFor(r.c.finalState, NavResultOf(r.c.followResult.value))
    ensures r.Returned? && !EndsWithSuccess(statuses) ==> ProcessEnding(Last(r.c.trace))
  {
    var p;
    ghost var before;
    p, rounds, rests, before := RunRounds(c, goal, s);
    if !p.Returned? {
      r := Halted(p);
    } else if !p.value {
      r := Returned(p.c, p.rest, ());
    } else {
      r := HandleFollowPathResult(p.c, p.rest);
    }
    statuses := before + (if p.Returned? && p.value then [MotionSuccess] else []);
    RoundsExit(rounds, rests, before, p, r);
    rounds := rounds + [p];
  }

  /** The first effect of a goal whose unexpected-path flag was clear. */
  function FirstEffect(goal: NavGoal): Effect {
    if goal.failureMode.FailureUnknown? then SetAborted(InvalidModeResult) else PublishGoalPose(goal.goalPose)
  }

  /**
    What the Abort mode makes of the events `s` once the plan wait for the
    goal stamped `stamp` runs, starting from `c`: it blocks and goes on
    where processGoal does, and handleFollowPathResult then ends the goal
    from the stored result, a second time when processGoal ended it first.
   */
  predicate AbortScript(c: Controller, stamp: Stamp, s: seq<Event>, r: Outcome<()>) {
    WaitingForPath(c.(token := stamp)) ==>
      && (EndIndex(PathWait(stamp), s) == |s| ==> r.Blocked?)
      && (ExpiresAfterEnd(FollowWait(false), After(PathWait(stamp), s)) ==> !r.Blocked?)
      && (EndIndex(PathWait(stamp), s) < |s| ==> PathChecksHandled(c, s, EndIndex(PathWait(stamp), s), r))
  }

  /**
    handleFollowPathResult after processGoal ended the goal with `e`: the
    goal is ended a second time from the stored result, or the thread
    dereferences a null result.
   */
  predicate EndedTwice(e: Effect, rest: seq<Event>, r: Outcome<()>) {
    && !r.Blocked? && (r.Crashed? ==> r.fault == NullFollowResult)
    && (r.Returned? ==> r.rest == rest && |r.c.trace| >= 2 && r.c.trace[|r.c.trace| - 2] == e)
  }

  /** The Abort mode once the plan wait ended on the `k`-th event of `s`, as in `PathChecked`. */
  predicate PathChecksHandled(c: Controller, s: seq<Event>, k: nat, r: Outcome<()>)
    requires k < |s|
  {
    var p := CheckedPath(c, s[k]);
    && (p.None? ==> r.Crashed? && r.fault == NullRequestedPath)
    && (p.Some? && |p.value.poses| < 2 ==> EndedTwice(SetAborted(NoPathResult), s[k + 1..], r))
    && (p.Some? && |p.value.poses| >= 2 && (s[k].CancelRequested? || s[k].NewGoalArrives?) ==>
          EndedTwice(SetPreempted, s[k + 1..], r))
    && (p.Some? && |p.value.poses| >= 2 && (s[k].PathArrives? || s[k].Shutdown?) ==> PathHandled(c, s, k, r))
  }

  /**
    The Abort mode on the events after the `k`-th event of `s`, which ended
    the plan wait: the done callback that ends the isDone loop, or the first
    one delivered during the plan wait, or one that ends the done-flag
    wait, gives the terminal call; a preempt or a timeout is followed by a
    second one.
   */
  predicate PathHandled(c: Controller, s: seq<Event>, k: nat, r: Outcome<()>)
    requires k < |s|
  {
    var f := s[k + 1..];
    var j := EndIndex(FollowWait(false), f);
    var late := LateDone(c, s, k);
    && (j == |f| ==> r.Blocked?)
    && (j < |f| && f[j].FollowerDone? ==>
          && r.Returned? && r.rest == f[j + 1..] && |r.c.trace| > 0
          && Last(r.c.trace) == TerminalFor(Some(f[j].state), NavResultOf(f[j].result)))
    && (j < |f| && (f[j].CancelRequested? || f[j].NewGoalArrives?) ==>
          var t := f[j + 1..];
          var i := EndIndex(DoneWait(true), t);
          && (r.Crashed? ==> r.fault == NullFollowResult)
          && (r.Returned? ==> |r.c.trace| >= 2 && r.c.trace[|r.c.trace| - 2] == SetPreempted)
          && (late ==>
                && r.Returned? && r.rest == t && |r.c.trace| > 0
                && Last(r.c.trace) == TerminalFor(Some(s[FirstDone(s, k)].state), NavResultOf(s[FirstDone(s, k)].result)))
          && (!late ==> (r.Blocked? <==> i == |t|) && (r.Returned? ==> r.rest == t[i + 1..])))
    && (j < |f| && f[j].FollowerFinishes? && late ==>
          && r.Returned? && r.rest == f[j + 1..] && |r.c.trace| > 0
          && Last(r.c.trace) == TerminalFor(Some(s[FirstDone(s, k)].state), NavResultOf(s[FirstDone(s, k)].result)))
    && (j < |f| && f[j].FollowerFinishes? && !late ==>
          var t := f[j + 1..];
          var i := EndIndex(DoneWait(true), t);
          && (r.Blocked? <==> i == |t|)
          && (i < |t| && t[i].FollowerDone? ==>
                && r.Returned? && r.rest == t[i + 1..] && |r.c.trace| > 0
                && Last(r.c.trace) == TerminalFor(Some(t[i].state), NavResultOf(t[i].result)))
          && (i < |t| && t[i].ClockExpires? && r.Returned? ==>
                |r.c.trace| >= 2 && r.c.trace[|r.c.trace| - 2] == SetAborted(TimeoutResult)))
  }

  /** How handleFollowPathResult `r` continues processGoal `p`. */
  predicate HandledAfter(p: Outcome<bool>, r: Outcome<()>) {
    && (!p.Returned? ==> !r.Returned? && r.Blocked? == p.Blocked?)
    && (p.Returned? && p.value ==> p.c.followResult.Some?)
    && (p.Returned? ==>
          && |p.c.trace| > 0 && !r.Blocked? && (r.Crashed? <==> p.c.followResult.None?)
          && (r.Crashed? ==> r.fault == NullFollowResult)
          && (r.Returned? ==>
                && r.rest == p.rest && |r.c.trace| >= 2 && r.c.trace[|r.c.trace| - 2] == Last(p.c.trace)
                && Last(r.c.trace) == TerminalFor(p.c.finalState, NavResultOf(p.c.followResult.value))))
  }

  /** The Abort mode after a preempt in the isDone loop: setPreempted, then the second terminal call. */
  lemma PathHandledPreempt(c: Controller, s: seq<Event>, k: nat, p: Outcome<bool>, r: Outcome<()>)
    requires k < |s| && PathFollowed(c, s, k, p) && HandledAfter(p, r)
    ensures var f := s[k + 1..];
      var j := EndIndex(FollowWait(false), f);
      j < |f| && (f[j].CancelRequested? || f[j].NewGoalArrives?) ==>
        var t := f[j + 1..];
        var i := EndIndex(DoneWait(true), t);
        && (r.Crashed? ==> r.fault == NullFollowResult)
        && (r.Returned? ==> |r.c.trace| >= 2 && r.c.trace[|r.c.trace| - 2] == SetPreempted)
        && (LateDone(c, s, k) ==>
              && r.Returned? && r.rest == t && |r.c.trace| > 0
              && Last(r.c.trace) == TerminalFor(Some(s[FirstDone(s, k)].state), NavResultOf(s[FirstDone(s, k)].result)))
        && (!LateDone(c, s, k) ==> (r.Blocked? <==> i == |t|) && (r.Returned? ==> r.rest == t[i + 1..]))
  {
  }

  /** The Abort mode after a finish in the isDone loop: the done-flag wait decides the terminal call. */
  lemma PathHandledFinish(c: Controller, s: seq<Event>, k: nat, p: Outcome<bool>, r: Outcome<()>)
    requires k < |s| && PathFollowed(c, s, k, p) && HandledAfter(p, r)
    ensures var f := s[k + 1..];
      var j := EndIndex(FollowWait(false), f);
      && (j < |f| && f[j].FollowerFinishes? && LateDone(c, s, k) ==>
            && r.Returned? && r.rest == f[j + 1..] && |r.c.trace| > 0
            && Last(r.c.trace) == TerminalFor(Some(s[FirstDone(s, k)].state), NavResultOf(s[FirstDone(s, k)].result)))
      && (j < |f| && f[j].FollowerFinishes? && !LateDone(c, s, k) ==>
            var t := f[j + 1..];
            var i := EndIndex(DoneWait(true), t);
            && (r.Blocked? <==> i == |t|)
            && (i < |t| && t[i].FollowerDone? ==>
                  && r.Returned? && r.rest == t[i + 1..] && |r.c.trace| > 0
                  && Last(r.c.trace) == TerminalFor(Some(t[i].state), NavResultOf(t[i].result)))
            && (i < |t| && t[i].ClockExpires? && r.Returned? ==>
                  |r.c.trace| >= 2 && r.c.trace[|r.c.trace| - 2] == SetAborted(TimeoutResult)))
  {
  }

  /** The Abort mode after the plan wait is processGoal's follow part, then the result handling. */
  lemma PathHandledFrom(c: Controller, s: seq<Event>, k: nat, p: Outcome<bool>, r: Outcome<()>)
    requires k < |s| && PathFollowed(c, s, k, p) && HandledAfter(p, r)
    ensures PathHandled(c, s, k, r)
  {
    PathHandledPreempt(c, s, k, p, r);
    PathHandledFinish(c, s, k, p, r);
  }

  /** The Abort mode after the checks is processGoal's outcome, then the result handling. */
  lemma PathChecksHandledFrom(c: Controller, s: seq<Event>, k: nat, p: Outcome<bool>, r: Outcome<()>)
    requires k < |s| && PathChecked(c, s, k, p) && HandledAfter(p, r)
    requires !p.Returned? && r.Crashed? ==> r.fault == p.fault
    ensures PathChecksHandled(c, s, k, r)
  {
    var q := CheckedPath(c, s[k]);
    if q.Some? && |q.value.poses| >= 2 && (s[k].PathArrives? || s[k].Shutdown?) {
      PathHandledFrom(c, s, k, p, r);
    }
  }

  /** The Abort mode is processGoal `p` followed by handleFollowPathResult. */
  lemma AbortComposes(c: Controller, stamp: Stamp, s: seq<Event>, p: Outcome<bool>, r: Outcome<()>)
    requires ProcessScript(c, stamp, s, p)
    requires !p.Returned? ==> r == Halted(p)
    requires p.Returned? ==> |p.c.trace| > 0 && r == HandleFollowPathResult(p.c, p.rest)
    requires p.Returned? && p.value ==> p.c.followResult.Some?
    ensures AbortScript(c, stamp, s, r)
  {
    if p.Returned? && r.Returned? {
      assert r.c.trace[|r.c.trace| - 2] == Last(p.c.trace);
    }
    assert HandledAfter(p, r);
    if WaitingForPath(c.(token := stamp)) && EndIndex(PathWait(stamp), s) < |s| {
      PathChecksHandledFrom(c, s, EndIndex(PathWait(stamp), s), p, r);
    }
  }

  /** A preempt already pending when the goal starts, with a short path left from an earlier goal. */
  predicate ShortPathPending(c: Controller) {
    c.preemptRequested && c.requestedPath.Some? && |c.requestedPath.value.poses| < 2
  }

  /** processGoal aborted the goal with NO_PATH_FOUND, consumed nothing and kept the stored result. */
  predicate ShortPathAborted(c: Controller, goal: NavGoal, s: seq<Event>, p: Outcome<bool>) {
    && p.Returned? && !p.value && p.rest == s
    && p.c.trace == c.trace + [PublishGoalPose(goal.goalPose), SetAborted(NoPathResult)]
    && p.c.followResult == c.followResult && p.c.finalState == c.finalState
  }

  /** With a preempt pending the plan wait does not run, so a short leftover path is aborted. */
  lemma IdleShortPath(c: Controller, goal: NavGoal, s: seq<Event>, p: Outcome<bool>)
    requires IdleScript(c, goal, s, p)
    ensures ShortPathPending(c) ==> ShortPathAborted(c, goal, s, p)
  {
  }

  /** The Abort mode's calls and trace follow from processGoal's, with handleFollowPathResult after it. */
  lemma AbortCalls(c: Controller, goal: NavGoal, s: seq<Event>, p: Outcome<bool>, r: Outcome<()>)
    requires c.active
    requires !p.Returned? ==> r == Halted(p)
    requires p.Returned? ==> r == HandleFollowPathResult(p.c, p.rest)
    requires c.trace + [PublishGoalPose(goal.goalPose)] <= p.c.trace
    requires p.Returned? && p.value ==>
      && p.c.followResult.Some? && p.c.calls == Plus(c.calls, NoActions.(plans := 1, follows := 1))
    requires p.Returned? && !p.value ==>
      ProcessEnding(Last(p.c.trace)) && EndedRun(c.calls, p.c.calls, 1, Last(p.c.trace))
    requires ShortPathPending(c) ==> ShortPathAborted(c, goal, s, p)
    ensures c.trace + [PublishGoalPose(goal.goalPose)] <= r.c.trace
    ensures r.Returned? ==>
      && !r.c.active && r.c.followResult.Some?
      && Last(r.c.trace) == TerminalFor(r.c.finalState, NavResultOf(r.c.followResult.value))
    // one terminal call after a completed follow run, two when processGoal ended the goal first
    ensures r.Returned? ==>
      && r.c.calls.plans == c.calls.plans + 1 && r.c.calls.follows <= c.calls.follows + 1
      && r.c.calls.replans == c.calls.replans && r.c.calls.unexpectedRuns == c.calls.unexpectedRuns
      && |r.c.trace| >= 2
      && (r.c.calls.terminals == c.calls.terminals + 1
          || (r.c.calls.terminals == c.calls.terminals + 2 && ProcessEnding(r.c.trace[|r.c.trace| - 2])))
    // a goal preempted before its path arrives, with a short path left over, is ended twice
    ensures ShortPathPending(c) ==>
      && (c.followResult.None? ==> r.Crashed? && r.fault == NullFollowResult)
      && (c.followResult.Some? ==>
            r.Returned? && r.c.trace == c.trace + [PublishGoalPose(goal.goalPose), SetAborted(NoPathResult),
                                                   TerminalFor(c.finalState, NavResultOf(c.followResult.value))])
  {
    if p.Returned? && r.Returned? {
      assert r.c.trace[|r.c.trace| - 2] == Last(p.c.trace);
    }
  }

  /**
    The Abort mode: processGoal, then handleFollowPathResult whatever
    processGoal returned. When processGoal has already ended the goal, the
    goal is ended a second time from the stored result, which may be a
    previous goal's, or the thread dereferences a null result.
   */
  method RunAbort(c: Controller, goal: NavGoal, s: seq<Event>) returns (r: Outcome<()>)
    requires c.active
    ensures c.trace + [PublishGoalPose(goal.goalPose)] <= r.c.trace
    ensures r.Returned? ==>
      && !r.c.active && r.c.followResult.Some?
      && Last(r.c.trace) == TerminalFor(r.c.finalState, NavResultOf(r.c.followResult.value))
    // one terminal call after a completed follow run, two when processGoal ended the goal first
    ensures r.Returned? ==>
      && r.c.calls.plans == c.calls.plans + 1 && r.c.calls.follows <= c.calls.follows + 1
      && r.c.calls.replans == c.calls.replans && r.c.calls.unexpectedRuns == c.calls.unexpectedRuns
      && |r.c.trace| >= 2
      && (r.c.calls.terminals == c.calls.terminals + 1
          || (r.c.calls.terminals == c.calls.terminals + 2 && ProcessEnding(r.c.trace[|r.c.trace| - 2])))
    // a goal preempted before its path arrives, with a short path left over, is ended twice
    ensures ShortPathPending(c) ==>
      && (c.followResult.None? ==> r.Crashed? && r.fault == NullFollowResult)
      && (c.followResult.Some? ==>
            r.Returned? && r.c.trace == c.trace + [PublishGoalPose(goal.goalPose), SetAborted(NoPathResult),
                                                   TerminalFor(c.finalState, NavResultOf(c.followResult.value))])
    ensures AbortScript(c, goal.goalPose.stamp, s, r)
  {
    var p := ProcessGoal(c, goal, s);
    if !p.Returned? {
      r := Halted(p);
    } else {
      r := HandleFollowPathResult(p.c, p.rest);
    }
    AbortComposes(c, goal.goalPose.stamp, s, p, r);
    IdleShortPath(c, goal, s, p);
    AbortCalls(c, goal, s, p, r);
  }

  /**
    The switch on the failure mode of navToGoalActionCallback. In the Abort
    mode the goal ends as `AbortScript` says; in the Replan mode it ends as
    `ReplanRounds` says, with `rounds`, `rests` and `statuses` its rounds,
    the events each started on and their motion statuses.
   */
  method RunByMode(c: Controller, goal: NavGoal, s: seq<Event>)
    returns (r: Outcome<()>, ghost rounds: seq<Outcome<bool>>, ghost rests: seq<seq<Event>>, ghost statuses: seq<MotionStatus>)
    requires c.active
    ensures c.trace + [FirstEffect(goal)] <= r.c.trace
    ensures goal.failureMode.FailureUnknown? ==> r == Returned(EndGoal(c, SetAborted(InvalidModeResult)), s, ())
    ensures r.Returned? ==> !r.c.active
    ensures goal.failureMode == FailureAbort ==> AbortScript(c, goal.goalPose.stamp, s, r)
    ensures goal.failureMode == FailureAbort && r.Returned? ==>
      && r.c.followResult.Some? && Last(r.c.trace) == TerminalFor(r.c.finalState, NavResultOf(r.c.followResult.value))
    ensures goal.failureMode == FailureReplan && r.Crashed? ==> r.fault == NullRequestedPath
    ensures goal.failureMode == FailureReplan ==> ReplanRounds(c, goal, s, rounds, rests, statuses, r)
    ensures goal.failureMode == FailureReplan && r.Returned? ==>
      ReplanEnding(Last(r.c.trace)) && ReplanCalls(c.calls, r.c.calls)
  {
    rounds, rests, statuses := [], [], [];
    match goal.failureMode
    case FailureAbort => r := RunAbort(c, goal, s);
    case FailureReplan => r, statuses, rounds, rests := ReplanLoop(c, goal, s);
    case FailureUnknown(_) => r := Returned(EndGoal(c, SetAborted(InvalidModeResult)), s, ());
  }

  /** The controller navToGoalActionCallback goes on with: a running unexpected path is cancelled first. */
  function CancelUnexpected(c: Controller): (c': Controller)
    ensures c'.trace == c.trace + (if c.unexpectedPath then [CancelFollowGoal] else [])
    ensures c' == c.(trace := c'.trace, calls := c'.calls)
  {
    if c.unexpectedPath then Emit(c, CancelFollowGoal) else c
  }

  /**
    navToGoalActionCallback: a running unexpected path is cancelled before
    anything else, and the failure mode then decides the run, from the
    controller after that cancel.
   */
  method NavToGoal(c: Controller, goal: NavGoal, s: seq<Event>)
    returns (r: Outcome<()>, ghost rounds: seq<Outcome<bool>>, ghost rests: seq<seq<Event>>, ghost statuses: seq<MotionStatus>)
    requires c.active
    ensures c.unexpectedPath ==> c.trace + [CancelFollowGoal, FirstEffect(goal)] <= r.c.trace
    ensures !c.unexpectedPath ==> c.trace + [FirstEffect(goal)] <= r.c.trace
    // an invalid failure mode is aborted at once, with no plan request
    ensures goal.failureMode.FailureUnknown? ==>
      && r.Returned? && r.rest == s
      && r.c.trace == c.trace + (if c.unexpectedPath then [CancelFollowGoal] else []) + [SetAborted(InvalidModeResult)]
    ensures r.Returned? ==> !r.c.active
    ensures goal.failureMode == FailureAbort ==> AbortScript(CancelUnexpected(c), goal.goalPose.stamp, s, r)
    ensures goal.failureMode == FailureAbort && r.Returned? ==>
      && r.c.followResult.Some? && Last(r.c.trace) == TerminalFor(r.c.finalState, NavResultOf(r.c.followResult.value))
    ensures goal.failureMode == FailureReplan && r.Crashed? ==> r.fault == NullRequestedPath
    ensures goal.failureMode == FailureReplan ==> ReplanRounds(CancelUnexpected(c), goal, s, rounds, rests, statuses, r)
    ensures goal.failureMode == FailureReplan && r.Returned? ==>
      ReplanEnding(Last(r.c.trace)) && ReplanCalls(CancelUnexpected(c).calls, r.c.calls)
  {
    var c0 := CancelUnexpected(c);
    r, rounds, rests, statuses := RunByMode(c0, goal, s);
    assert c.unexpectedPath ==> c0.trace + [FirstEffect(goal)] == c.trace + [CancelFollowGoal, FirstEffect(goal)];
  }
}

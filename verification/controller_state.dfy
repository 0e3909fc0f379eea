/**
  The state of the path controller and the callbacks that change it while
  the execute thread waits: pathCallback, followPathDoneCB,
  followPathFeedbackCB, followUnexpectedPathDoneCB, and the action server's
  and ROS's own flags (preempt requested, new goal available, ros::ok).
  Callbacks are discrete events applied one at a time; there are no threads.
 */
module ControllerState {
  import opened Wrappers
  import opened PathMessages
  import opened ActionServer
  import opened ResultTranslation

  /** ~nonaction_velocity when the parameter is not set. */
  const DefaultUnexpectedPathVelocity: real := 0.5

  /** The debug_test value of every follow goal started for an unexpected path. */
  const UnexpectedPathDebugTest: int := 255

  /**
    The follow_path client's view of its most recent goal: which done
    callback it was sent with, whether its state is done (getState().isDone())
    and whether the done callback has run.
   */
  datatype FollowTracking = NoFollowGoal | Tracking(kind: GoalKind, finished: bool, notified: bool)

  datatype Controller = Controller(
    token: Stamp,                          // goal_timestamp_: 0 means no plan request is outstanding
    requestedPath: Option<Path>,           // requested_path_ (null until the first matching path)
    followDone: bool,                      // follow_path_done_
    followResult: Option<FollowResult>,    // follow_path_result_ (null until the first done callback)
    finalState: Option<GoalState>,         // follow_path_final_state_ (uninitialised until then)
    unexpectedPath: bool,                  // unexpected_path_
    unexpectedVelocity: real,              // opt_.unexpected_path_velocity
    active: bool,                          // navigate_to_goal_server_.isActive()
    preemptRequested: bool,                // navigate_to_goal_server_.isPreemptRequested()
    newGoalAvailable: bool,                // navigate_to_goal_server_.isNewGoalAvailable()
    rosOk: bool,                           // ros::ok()
    follow: FollowTracking,
    trace: seq<Effect>,                    // every call made, in order
    calls: Tally)                          // the same calls, counted by kind

  /** The controller right after construction. */
  function Initial(unexpectedVelocity: real): (c: Controller)
    ensures c.token == 0 && !c.active && !c.unexpectedPath && c.trace == [] && Counted(c)
  {
    Controller(0, None, false, None, None, false, unexpectedVelocity,
               false, false, false, true, NoFollowGoal, [], NoActions)
  }

  /** The calls record counts exactly the calls in the trace. */
  predicate Counted(c: Controller) {
    c.calls == Count(c.trace)
  }

  /** The things that can happen while the execute thread waits. */
  datatype Event =
    | PathArrives(path: Path)                                  // a message on /path
    | FollowerFeedback(feedback: FollowFeedback)               // follow_path feedback
    | FollowerFinishes                                         // the follow goal's state becomes done, callback not yet run
    | FollowerDone(state: GoalState, result: FollowResult)     // the follow goal's done callback runs
    | CancelRequested                                          // a client cancels the navigate_to_goal goal
    | NewGoalArrives                                           // a new navigate_to_goal goal is received
    | Shutdown                                                 // ros::ok() turns false
    | ClockExpires                                             // a pending 10-second deadline passes

  /** Records one call. */
  function Emit(c: Controller, e: Effect): (c': Controller)
    ensures c'.trace == c.trace + [e] && c'.calls == Plus(c.calls, TallyOf(e))
  {
    c.(trace := c.trace + [e], calls := Plus(c.calls, TallyOf(e)))
  }

  /** Recording a call keeps the count exact. */
  lemma EmitCounted(c: Controller, e: Effect)
    requires Counted(c)
    ensures Counted(Emit(c, e))
  {
    CountSnoc(c.trace, e);
  }

  /** A terminal call on the action server: recorded, and the goal is no longer active. */
  function EndGoal(c: Controller, e: Effect): (c': Controller)
    requires IsTerminal(e)
    ensures c'.trace == c.trace + [e] && c'.calls == Plus(c.calls, TallyOf(e)) && !c'.active
  {
    Emit(c, e).(active := false)
  }

  /** The follow goal pathCallback starts for an unexpected path. */
  function UnexpectedGoal(c: Controller, p: Path): FollowGoal {
    FollowGoal(UnexpectedPathDebugTest, p, c.unexpectedVelocity)
  }

  /**
    pathCallback. With no request outstanding the path is unexpected and is
    followed, fire-and-forget, only when no goal is active; with a request
    outstanding only the path carrying its stamp is taken, and the token is
    reset.
   */
  function PathCallback(c: Controller, p: Path): (c': Controller)
    ensures c.token != 0 && p.stamp == c.token ==> c' == c.(requestedPath := Some(p), token := 0)
    ensures c.token != 0 && p.stamp != c.token ==> c' == c
    ensures c.token == 0 && c.active ==> c' == c
    ensures c.token == 0 && !c.active ==>
      && c' == Emit(c, SendFollowGoal(FollowGoal(255, p, c.unexpectedVelocity), Unexpected))
           .(unexpectedPath := true, follow := Tracking(Unexpected, false, false))
  {
    if c.token == 0 then
      if !c.active then
        Emit(c, SendFollowGoal(UnexpectedGoal(c, p), Unexpected))
          .(unexpectedPath := true, follow := Tracking(Unexpected, false, false))
      else c
    else if p.stamp == c.token then
      c.(requestedPath := Some(p), token := 0)
    else c
  }

  /** followPathDoneCB: stores the final state and result and raises the done flag. */
  function FollowPathDoneCallback(c: Controller, state: GoalState, result: FollowResult): (c': Controller)
    ensures c'.followDone && c'.followResult == Some(result) && c'.finalState == Some(state)
    ensures c'.trace == c.trace && c'.calls == c.calls
  {
    c.(finalState := Some(state), followResult := Some(result), followDone := true)
  }

  /** followUnexpectedPathDoneCB: the unexpected run is over. */
  function UnexpectedPathDoneCallback(c: Controller): (c': Controller)
    ensures !c'.unexpectedPath && c'.trace == c.trace && c'.calls == c.calls
  {
    c.(unexpectedPath := false)
  }

  /**
    followPathFeedbackCB, reached only for a supervised goal that is not
    finished: such a goal's feedback is relayed, one translated message per
    feedback, and any other feedback changes nothing.
   */
  function FeedbackCallback(c: Controller, fb: FollowFeedback): (c': Controller)
    ensures (c.follow.Tracking? && c.follow.kind == Supervised && !c.follow.finished) <==>
      c'.trace == c.trace + [PublishFeedback(FeedbackOf(fb))]
    ensures !(c.follow.Tracking? && c.follow.kind == Supervised && !c.follow.finished) ==> c' == c
    ensures c' == c.(trace := c'.trace)
    ensures c'.calls == c.calls
  {
    var e := PublishFeedback(FeedbackOf(fb));
    if c.follow.Tracking? && c.follow.kind == Supervised && !c.follow.finished then Emit(c, e) else c
  }

  /**
    The follow goal's done callback: it runs once per goal, and the one that
    runs is the one the goal was sent with.
   */
  function DoneCallback(c: Controller, state: GoalState, result: FollowResult): (c': Controller)
    ensures c'.trace == c.trace && c'.calls == c.calls && c'.active == c.active && c'.token == c.token
    ensures c'.requestedPath == c.requestedPath && c'.preemptRequested == c.preemptRequested
    ensures c'.rosOk == c.rosOk && c'.unexpectedVelocity == c.unexpectedVelocity
    ensures c'.newGoalAvailable == c.newGoalAvailable
    ensures c'.follow.Tracking? == c.follow.Tracking?
    // a goal whose callback has already run is not notified again
    ensures c.follow.Tracking? && c.follow.notified ==> c' == c
    ensures c.follow.Tracking? && !c.follow.notified ==>
      c'.follow.finished && c'.follow.notified
    ensures c.follow.Tracking? ==> c'.follow.kind == c.follow.kind
    ensures c.follow.Tracking? && c.follow.finished ==> c'.follow.finished
    ensures c.follow.Tracking? && !c.follow.notified && c.follow.kind == Supervised ==>
      c'.followDone && c'.followResult == Some(result) && c'.finalState == Some(state)
    ensures c.follow.Tracking? && !c.follow.notified && c.follow.kind == Unexpected ==> !c'.unexpectedPath
    ensures (c.followDone ==> c.followResult.Some?) ==> (c'.followDone ==> c'.followResult.Some?)
    ensures c.followDone ==> c'.followDone
  {
    if c.follow.Tracking? && !c.follow.notified then
      var c1 := c.(follow := c.follow.(finished := true, notified := true));
      if c.follow.kind == Supervised then FollowPathDoneCallback(c1, state, result)
      else UnexpectedPathDoneCallback(c1)
    else c
  }

  /** Delivers one event. */
  function Callback(c: Controller, e: Event): (c': Controller)
    // the callbacks never end the goal and never change the configuration
    ensures c'.active == c.active && c'.unexpectedVelocity == c.unexpectedVelocity
    // while a goal is active they perform no action: at most follower feedback is relayed
    ensures c.active ==> c'.calls == c.calls
    ensures || c'.trace == c.trace
            || (e.FollowerFeedback? && c'.trace == c.trace + [PublishFeedback(FeedbackOf(e.feedback))])
            || (e.PathArrives? && !c.active && c'.trace == c.trace + [SendFollowGoal(UnexpectedGoal(c, e.path), Unexpected)])
    ensures c.active ==> (c'.follow.Tracking? <==> c.follow.Tracking?)
    ensures c.active && c.follow.Tracking? ==> c'.follow.kind == c.follow.kind
    ensures c.follow.Tracking? && c.follow.finished && c.active ==> c'.follow.finished
    ensures c.follow.Tracking? && c.active ==> c'.follow.notified == (c.follow.notified || e.FollowerDone?)
    // the token and the stored path change only when the awaited path arrives
    ensures c'.token != c.token || c'.requestedPath != c.requestedPath ==>
      && e.PathArrives? && c.token != 0 && e.path.stamp == c.token
      && c'.token == 0 && c'.requestedPath == Some(e.path)
    // the done flag is raised only together with a result, and stays raised
    ensures (c.followDone ==> c.followResult.Some?) ==> (c'.followDone ==> c'.followResult.Some?)
    ensures c.followDone ==> c'.followDone
    ensures !c.followDone && c'.followDone ==> e.FollowerDone?
    ensures !e.FollowerDone? ==>
      c'.followDone == c.followDone && c'.followResult == c.followResult && c'.finalState == c.finalState
    ensures c.preemptRequested ==> c'.preemptRequested
    ensures c'.rosOk ==> c.rosOk
  {
    match e
    case PathArrives(p) => PathCallback(c, p)
    case FollowerFeedback(fb) => FeedbackCallback(c, fb)
    case FollowerFinishes =>
      if c.follow.Tracking? then c.(follow := c.follow.(finished := true)) else c
    case FollowerDone(state, result) => DoneCallback(c, state, result)
    case CancelRequested => c.(preemptRequested := c.preemptRequested || c.active)
    case NewGoalArrives =>
      c.(newGoalAvailable := true, preemptRequested := c.preemptRequested || c.active)
    case Shutdown => c.(rosOk := false)
    case ClockExpires => c
  }

  /** Delivering an event keeps the calls record exact. */
  lemma CallbackCounted(c: Controller, e: Event)
    requires Counted(c)
    ensures Counted(Callback(c, e))
  {
    match e
    case PathArrives(p) =>
      if c.token == 0 && !c.active {
        EmitCounted(c, SendFollowGoal(UnexpectedGoal(c, p), Unexpected));
      }
    case FollowerFeedback(fb) =>
      if c.follow.Tracking? && c.follow.kind == Supervised && !c.follow.finished {
        EmitCounted(c, PublishFeedback(FeedbackOf(fb)));
      }
    case _ =>
  }
}

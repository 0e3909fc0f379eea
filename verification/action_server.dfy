/**
  The externally visible calls of the path controller, recorded in order:
  plan requests to the planner, goals and cancels sent to the follow_path
  client, and feedback and terminal calls on the navigate_to_goal server.
 */
module ActionServer {
  import opened PathMessages

  /** Which done callback a follow_path goal was sent with. */
  datatype GoalKind = Supervised | Unexpected

  datatype Effect =
    | PublishGoalPose(pose: StampedPose)
    | SendFollowGoal(goal: FollowGoal, kind: GoalKind)
    | CancelFollowGoal
    | PublishFeedback(feedback: NavFeedback)
    | SetAborted(result: NavResult)
    | SetPreempted
    | SetSucceeded(result: NavResult)

  /** The calls that end a navigate_to_goal goal. */
  predicate IsTerminal(e: Effect) {
    e.SetAborted? || e.SetPreempted? || e.SetSucceeded?
  }

  /**
    How many of each action a stretch of the trace holds. Feedback is not
    counted, except the STATUS_REPLAN feedback the replan loop publishes.
   */
  datatype Tally = Tally(plans: nat, follows: nat, unexpectedRuns: nat, cancels: nat, terminals: nat, replans: nat)

  const NoActions := Tally(0, 0, 0, 0, 0, 0)

  function Plus(a: Tally, b: Tally): Tally {
    Tally(a.plans + b.plans, a.follows + b.follows, a.unexpectedRuns + b.unexpectedRuns,
          a.cancels + b.cancels, a.terminals + b.terminals, a.replans + b.replans)
  }

  function TallyOf(e: Effect): (t: Tally)
    ensures t.terminals == (if IsTerminal(e) then 1 else 0)
  {
    match e
    case PublishGoalPose(_) => NoActions.(plans := 1)
    case SendFollowGoal(_, kind) =>
      if kind == Supervised then NoActions.(follows := 1) else NoActions.(unexpectedRuns := 1)
    case CancelFollowGoal => NoActions.(cancels := 1)
    case PublishFeedback(f) => if f.status == FeedbackReplan then NoActions.(replans := 1) else NoActions
    case SetAborted(_) => NoActions.(terminals := 1)
    case SetPreempted => NoActions.(terminals := 1)
    case SetSucceeded(_) => NoActions.(terminals := 1)
  }

  function Count(t: seq<Effect>): Tally
    decreases |t|
  {
    if |t| == 0 then NoActions else Plus(Count(t[..|t| - 1]), TallyOf(t[|t| - 1]))
  }

  /** Appending one effect adds exactly its own tally. */
  lemma CountSnoc(t: seq<Effect>, e: Effect)
    ensures Count(t + [e]) == Plus(Count(t), TallyOf(e))
  {
    assert (t + [e])[..|t + [e]| - 1] == t;
  }
}
